/**
 The node check runner: which checks apply, in what order they run, and how their results
 drain, resume or comment the Slurm node through a cached view of it.
 */
module CheckRunner {
  import opened Strconv
  import opened Decimal
  import opened Lists
  import opened Strings

  /** reasonBase is the reason prefix after trimming and substitution. */
  datatype Check = Check(
    name: string,
    platforms: seq<string>,
    skipForCpuJobs: bool,
    skipForPartialGpuJobs: bool,
    contexts: seq<string>,
    nodeStates: seq<string>,
    onFail: string,
    onOk: string,
    reasonBase: string,
    appendDetails: bool,
    runInJail: bool,
    needEnv: seq<string>)

  /** What the runner knows of the node; NO_INFO stands in when the query fails. */
  datatype Info = Info(flags: seq<string>, reason: string, comment: string)

  const NO_INFO := Info([], "", "")

  /** The run's surroundings; metadata says whether the node's memory can be read locally. */
  datatype Env = Env(context: string, jobGpus: string, tags: seq<string>, metadata: bool)

  function Commas(s: string): nat {
    if s == "" then 0 else Commas(s[..|s| - 1]) + if s[|s| - 1] == ',' then 1 else 0
  }

  function JobGpus(env: Env): nat {
    if env.jobGpus == "" then 0 else Commas(env.jobGpus) + 1
  }

  predicate JobRelated(env: Env) {
    env.context == "prolog" || env.context == "epilog"
  }

  // ---------------------------------------------------------------------------
  // Filters
  // ---------------------------------------------------------------------------

  predicate All(cs: seq<Check>, p: Check -> bool) {
    forall i :: 0 <= i < |cs| ==> p(cs[i])
  }

  function ContextFits(env: Env): Check -> bool {
    (c: Check) => "any" in c.contexts || env.context in c.contexts
  }

  function CpuFits(env: Env): Check -> bool {
    (c: Check) => !(c.skipForCpuJobs && JobGpus(env) == 0)
  }

  function PlatformFits(env: Env): Check -> bool {
    (c: Check) => "any" in c.platforms || exists i :: 0 <= i < |env.tags| && env.tags[i] in c.platforms
  }

  function PartialFits(env: Env): Check -> bool {
    (c: Check) => !(c.skipForPartialGpuJobs && JobGpus(env) > 0 && Numeral(JobGpus(env)) + "xGPU" !in env.tags)
  }

  function StateFits(info: Info): Check -> bool {
    (c: Check) => "any" in c.nodeStates || ("drain" in c.nodeStates && "DRAIN" in info.flags)
  }

  function FilterByContext(cs: seq<Check>, env: Env): seq<Check> {
    if All(cs, (c: Check) => "any" in c.contexts) then cs else Filter(cs, ContextFits(env))
  }

  function FilterBySkipForCpuJobs(cs: seq<Check>, env: Env): seq<Check> {
    if All(cs, (c: Check) => !c.skipForCpuJobs) || !JobRelated(env) then cs else Filter(cs, CpuFits(env))
  }

  function FilterByPlatform(cs: seq<Check>, env: Env): seq<Check> {
    if All(cs, (c: Check) => "any" in c.platforms) then cs else Filter(cs, PlatformFits(env))
  }

  function FilterBySkipForPartialGpuJobs(cs: seq<Check>, env: Env): seq<Check> {
    if All(cs, (c: Check) => !c.skipForPartialGpuJobs) || !JobRelated(env) then cs else Filter(cs, PartialFits(env))
  }

  predicate NoStateMatters(cs: seq<Check>) {
    All(cs, (c: Check) => "any" in c.nodeStates)
  }

  /** info is what the node query would return; it is asked only when some check cares. */
  function FilterByNodeState(cs: seq<Check>, info: Info): seq<Check> {
    if NoStateMatters(cs) then cs else Filter(cs, StateFits(info))
  }

  /** The filters before the one that needs the node. */
  function Prefiltered(cs: seq<Check>, env: Env): seq<Check> {
    FilterBySkipForPartialGpuJobs(FilterByPlatform(FilterBySkipForCpuJobs(FilterByContext(cs, env), env), env), env)
  }

  /** The conditions of all filters at once; the job ones bind only job-related runs. */
  function Applies(env: Env, info: Info): Check -> bool {
    (c: Check) => ContextFits(env)(c) && (JobRelated(env) ==> CpuFits(env)(c) && PartialFits(env)(c)) &&
      PlatformFits(env)(c) && StateFits(info)(c)
  }

  lemma {:induction false} FilterAll(cs: seq<Check>, p: Check -> bool)
    requires All(cs, p)
    ensures Filter(cs, p) == cs
  {
    if cs != [] {
      FilterAll(cs[..|cs| - 1], p);
    }
  }

  lemma {:induction false} FilterTwice(cs: seq<Check>, p: Check -> bool, q: Check -> bool, both: Check -> bool)
    requires forall c :: both(c) <==> p(c) && q(c)
    ensures Filter(Filter(cs, p), q) == Filter(cs, both)
  {
    if cs != [] {
      var front, c := cs[..|cs| - 1], cs[|cs| - 1];
      FilterTwice(front, p, q, both);
      if p(c) {
        assert (Filter(front, p) + [c])[..|Filter(front, p)|] == Filter(front, p);
      }
    }
  }

  function WhenJob(env: Env, p: Check -> bool): Check -> bool {
    (c: Check) => JobRelated(env) ==> p(c)
  }

  /** Each filter, shortcut included, keeps exactly the checks that fit. */
  lemma {:induction false} ContextFiltered(cs: seq<Check>, env: Env)
    ensures FilterByContext(cs, env) == Filter(cs, ContextFits(env))
  {
    if All(cs, (c: Check) => "any" in c.contexts) {
      FilterAll(cs, ContextFits(env));
    }
  }

  lemma {:induction false} CpuFiltered(cs: seq<Check>, env: Env)
    ensures FilterBySkipForCpuJobs(cs, env) == Filter(cs, WhenJob(env, CpuFits(env)))
  {
    if All(cs, (c: Check) => !c.skipForCpuJobs) || !JobRelated(env) {
      FilterAll(cs, WhenJob(env, CpuFits(env)));
    } else {
      FilterSame(cs, CpuFits(env), WhenJob(env, CpuFits(env)));
    }
  }

  lemma {:induction false} PlatformFiltered(cs: seq<Check>, env: Env)
    ensures FilterByPlatform(cs, env) == Filter(cs, PlatformFits(env))
  {
    if All(cs, (c: Check) => "any" in c.platforms) {
      FilterAll(cs, PlatformFits(env));
    }
  }

  lemma {:induction false} PartialFiltered(cs: seq<Check>, env: Env)
    ensures FilterBySkipForPartialGpuJobs(cs, env) == Filter(cs, WhenJob(env, PartialFits(env)))
  {
    if All(cs, (c: Check) => !c.skipForPartialGpuJobs) || !JobRelated(env) {
      FilterAll(cs, WhenJob(env, PartialFits(env)));
    } else {
      FilterSame(cs, PartialFits(env), WhenJob(env, PartialFits(env)));
    }
  }

  lemma {:induction false} StateFiltered(cs: seq<Check>, info: Info)
    ensures FilterByNodeState(cs, info) == Filter(cs, StateFits(info))
  {
    if NoStateMatters(cs) {
      FilterAll(cs, StateFits(info));
    }
  }

  lemma {:induction false} FilterSame(cs: seq<Check>, p: Check -> bool, q: Check -> bool)
    requires forall c :: p(c) == q(c)
    ensures Filter(cs, p) == Filter(cs, q)
  {
    if cs != [] {
      FilterSame(cs[..|cs| - 1], p, q);
    }
  }

  function Both(p: Check -> bool, q: Check -> bool): Check -> bool {
    (c: Check) => p(c) && q(c)
  }

  /** The chain of filters with their shortcuts is one filter by the conjunction of the conditions. */
  lemma {:induction false} FilterChain(cs: seq<Check>, env: Env, info: Info)
    ensures FilterByNodeState(Prefiltered(cs, env), info) == Filter(cs, Applies(env, info))
  {
    var a, b, c, d, e := ContextFits(env), WhenJob(env, CpuFits(env)), PlatformFits(env),
      WhenJob(env, PartialFits(env)), StateFits(info);
    FiltersCompose(cs, a, b, c, d, e);
    ContextFiltered(cs, env);
    CpuFiltered(Filter(cs, a), env);
    PlatformFiltered(Filter(Filter(cs, a), b), env);
    PartialFiltered(Filter(Filter(Filter(cs, a), b), c), env);
    StateFiltered(Prefiltered(cs, env), info);
    FilterSame(cs, Both(Both(Both(Both(a, b), c), d), e), Applies(env, info));
  }

  lemma {:induction false} FiltersCompose(cs: seq<Check>, a: Check -> bool, b: Check -> bool, c: Check -> bool,
      d: Check -> bool, e: Check -> bool)
    ensures Filter(Filter(Filter(Filter(Filter(cs, a), b), c), d), e) ==
      Filter(cs, Both(Both(Both(Both(a, b), c), d), e))
  {
    FilterTwice(cs, a, b, Both(a, b));
    FilterTwice(cs, Both(a, b), c, Both(Both(a, b), c));
    FilterTwice(cs, Both(Both(a, b), c), d, Both(Both(Both(a, b), c), d));
    FilterTwice(cs, Both(Both(Both(a, b), c), d), e, Both(Both(Both(Both(a, b), c), d), e));
  }

  lemma {:induction false} CommaFree(a: string, b: string)
    requires ',' !in b
    ensures Commas(a + b) == Commas(a)
  {
    if b == "" {
      assert a + b == a;
    } else {
      var front := b[..|b| - 1];
      CommaFree(a, front);
      assert (a + b)[..|a + b| - 1] == a + front;
    }
  }

  lemma {:induction false} JoinedCommas(ids: seq<string>)
    requires ids != [] && forall i :: 0 <= i < |ids| ==> ',' !in ids[i]
    ensures Commas(Join(ids)) == |ids| - 1
  {
    var front, last := ids[..|ids| - 1], ids[|ids| - 1];
    if front == [] {
      CommaFree("", last);
      assert "" + last == last;
    } else {
      JoinedCommas(front);
      CommaFree(Join(front) + ",", last);
      assert (Join(front) + ",")[..|Join(front)|] == Join(front);
    }
  }

  /** A job has as many GPUs as its list has entries; an empty variable means none. */
  lemma {:induction false} JobGpusCount(env: Env, ids: seq<string>)
    requires env.jobGpus == Join(ids) && forall i :: 0 <= i < |ids| ==> ',' !in ids[i]
    ensures JobGpus(env) == if env.jobGpus == "" then 0 else |ids|
  {
    if ids != [] {
      JoinedCommas(ids);
    }
  }

  /** What a check has to say about the run and the node for it to be run. */
  ghost predicate Wanted(c: Check, env: Env, info: Info) {
    && ("any" in c.contexts || env.context in c.contexts)
    && ("any" in c.platforms || exists t :: t in env.tags && t in c.platforms)
    && ("any" in c.nodeStates || ("drain" in c.nodeStates && "DRAIN" in info.flags))
    && (env.context in ["prolog", "epilog"] && JobGpus(env) == 0 ==> !c.skipForCpuJobs)
    && (env.context in ["prolog", "epilog"] && JobGpus(env) > 0 && c.skipForPartialGpuJobs ==>
      Numeral(JobGpus(env)) + "xGPU" in env.tags)
  }

  lemma {:induction false} WantedApplies(c: Check, env: Env, info: Info)
    ensures Applies(env, info)(c) == Wanted(c, env, info)
  {
    assert PlatformFits(env)(c) == ("any" in c.platforms || exists t :: t in env.tags && t in c.platforms) by {
      if t :| t in env.tags && t in c.platforms {
        var i :| 0 <= i < |env.tags| && env.tags[i] == t;
      }
    }
    assert JobRelated(env) == (env.context in ["prolog", "epilog"]);
  }

  /** The filters keep every copy of the wanted checks and no other check. */
  lemma {:induction false} WantedAreChosen(cs: seq<Check>, env: Env, info: Info, c: Check)
    ensures multiset(FilterByNodeState(Prefiltered(cs, env), info))[c] ==
      if Wanted(c, env, info) then multiset(cs)[c] else 0
  {
    FilterChain(cs, env, info);
    FilterCounts(cs, Applies(env, info), c);
    WantedApplies(c, env, info);
  }

  // ---------------------------------------------------------------------------
  // Reactions
  // ---------------------------------------------------------------------------

  datatype Write = Drain(reason: string) | Resume | Comment(text: string) | Uncomment

  function Reason(c: Check, details: string, env: Env): string {
    c.reasonBase + (if c.appendDetails && details != "" then ": " + details else "") + " [" + env.context + "]"
  }

  /** The reason or comment was left by the same check. */
  predicate SameReason(text: string, c: Check) {
    text != "" && c.reasonBase <= text
  }

  /** What the runner writes to the node after a check, given what it knows of the node. */
  function Reaction(c: Check, passed: bool, details: string, env: Env, info: Info): Option<Write> {
    if !passed then
      if c.onFail == "drain" && "DRAIN" !in info.flags then Some(Drain(Reason(c, details, env)))
      else if c.onFail == "comment" then Some(Comment(Reason(c, details, env)))
      else None
    else if env.context != "hc_program" then None
    else if c.onOk == "undrain" && "DRAIN" in info.flags && SameReason(info.reason, c) then Some(Resume)
    else if c.onOk == "uncomment" && SameReason(info.comment, c) then Some(Uncomment)
    else None
  }

  /** What happens around one external command: other writers first, then the command's own result. */
  datatype Turn = Turn(foreign: seq<Info>, raised: bool, ok: bool, after: Info, details: string)

  /**
   One check that ran: its result, the write that followed, and what was known of the node.
   The node's versions are numbered; own is the last one this run wrote (0 before any), seen the
   one its knowledge comes from, and latest the one in place when the write was made.
   */
  datatype Ran = Ran(check: Check, passed: bool, details: string, write: Option<Write>, info: Info, own: nat,
    seen: nat, latest: nat)

  /** A write command that was sent, and the version of the node in place when it was. */
  datatype Sent = Sent(write: Write, latest: nat)

  /** A check command that ran, and how it ended. */
  datatype Result = Result(check: Check, passed: bool, details: string)

  /** The check results the log accounts for, in order. */
  function ResultsOf(log: seq<Ran>): seq<Result> {
    seq(|log|, i requires 0 <= i < |log| => Result(log[i].check, log[i].passed, log[i].details))
  }

  /** The commands the log accounts for, in order. */
  function WritesOf(log: seq<Ran>): seq<Sent> {
    if log == [] then []
    else
      var front, r := WritesOf(log[..|log| - 1]), log[|log| - 1];
      if r.write.Some? then front + [Sent(r.write.value, r.latest)] else front
  }

  /** The reaction to this result depends on the node. */
  predicate Consults(c: Check, passed: bool, env: Env) {
    if passed then env.context == "hc_program" && c.onOk in ["undrain", "uncomment"] else c.onFail == "drain"
  }

  /** Knowledge of the node is a version no older than the run's own last write, or nothing if that is excused. */
  ghost predicate Known(info: Info, own: nat, seen: nat, latest: nat, versions: seq<Info>, excused: bool) {
    && latest < |versions| && own <= latest
    && ((excused && info == NO_INFO) || (own <= seen <= latest && info == versions[seen]))
  }

  /** Only a failed query, or a result whose reaction does not depend on the node, excuses knowing nothing. */
  ghost predicate Sound(r: Ran, versions: seq<Info>, env: Env, blind: bool) {
    && r.write == Reaction(r.check, r.passed, r.details, env, r.info)
    && Known(r.info, r.own, r.seen, r.latest, versions, blind || !Consults(r.check, r.passed, env))
  }

  ghost predicate AllSound(log: seq<Ran>, versions: seq<Info>, env: Env, blind: bool) {
    forall i :: 0 <= i < |log| ==> Sound(log[i], versions, env, blind)
  }

  /** Every check but the last one passed. */
  ghost predicate StopsAtFailure(log: seq<Ran>) {
    forall i :: 0 <= i < |log| - 1 ==> log[i].passed
  }

  ghost predicate AllPassed(log: seq<Ran>) {
    forall i :: 0 <= i < |log| ==> log[i].passed
  }

  /** No one else wrote between the run's own last write and each check's write. */
  ghost predicate Undisturbed(log: seq<Ran>) {
    forall i :: 0 <= i < |log| ==> log[i].own == log[i].latest
  }

  ghost predicate Quiet(future: seq<Turn>) {
    forall i :: 0 <= i < |future| ==> future[i].foreign == []
  }

  /** Every command can be started. */
  ghost predicate Smooth(future: seq<Turn>) {
    forall i :: 0 <= i < |future| ==> !future[i].raised
  }

  function ChecksOf(log: seq<Ran>): seq<Check> {
    seq(|log|, i requires 0 <= i < |log| => log[i].check)
  }

  /** Resumed from the health check context, by a passed check, while drained for that check's reason. */
  ghost predicate Justified(r: Ran, versions: seq<Info>, env: Env) {
    && env.context == "hc_program" && r.passed && r.check.onOk == "undrain"
    && r.latest < |versions| && "DRAIN" in versions[r.latest].flags && SameReason(versions[r.latest].reason, r.check)
  }

  /** Every resume command sent goes back to a check of the log that justified it at that moment. */
  ghost predicate ResumesJustified(issued: seq<Sent>, log: seq<Ran>, versions: seq<Info>, env: Env) {
    forall k :: 0 <= k < |issued| && issued[k].write == Resume ==>
      exists i :: 0 <= i < |log| && log[i].latest == issued[k].latest && Justified(log[i], versions, env)
  }

  lemma {:induction false} SoundResumes(log: seq<Ran>, versions: seq<Info>, env: Env, blind: bool)
    requires AllSound(log, versions, env, blind) && Undisturbed(log)
    ensures ResumesJustified(WritesOf(log), log, versions, env)
  {
    if log != [] {
      var front, n := log[..|log| - 1], |log| - 1;
      SoundResumes(front, versions, env, blind);
      var issued := WritesOf(log);
      forall k | 0 <= k < |issued| && issued[k].write == Resume
        ensures exists i :: 0 <= i < |log| && log[i].latest == issued[k].latest && Justified(log[i], versions, env)
      {
        if k < |WritesOf(front)| {
          var i :| 0 <= i < |front| && front[i].latest == issued[k].latest && Justified(front[i], versions, env);
          assert log[i] == front[i];
        } else {
          assert Sound(log[n], versions, env, blind);
        }
      }
    }
  }

  /** Every reaction that depends on the node rests on the node as it was at that moment. */
  ghost predicate Informed(log: seq<Ran>, versions: seq<Info>, env: Env) {
    forall i :: 0 <= i < |log| && Consults(log[i].check, log[i].passed, env) ==>
      log[i].latest < |versions| && log[i].info == versions[log[i].latest]
  }

  lemma {:induction false} SoundIsInformed(log: seq<Ran>, versions: seq<Info>, env: Env)
    requires AllSound(log, versions, env, false) && Undisturbed(log)
    ensures Informed(log, versions, env)
  {
    forall i | 0 <= i < |log| && Consults(log[i].check, log[i].passed, env)
      ensures log[i].latest < |versions| && log[i].info == versions[log[i].latest]
    {
      assert Sound(log[i], versions, env, false);
    }
  }

  /** A reason or comment says which check it is, the details if the check wants them, and the context. */
  ghost predicate Tells(text: string, r: Ran, env: Env) {
    var middle := if r.check.appendDetails && r.details != "" then ": " + r.details else "";
    text == r.check.reasonBase + middle + " [" + env.context + "]"
  }

  /**
   The commands that one check leads to. A failed drain check drains the node unless it is known
   to be drained; a failed comment check comments it. A passed check acts in the health check
   program only, on a drain or a comment that its own reason begins.
   */
  ghost predicate Answers(r: Ran, sent: seq<Sent>, env: Env) {
    && |sent| <= 1 && (sent != [] ==> sent[0].latest == r.latest)
    && (!r.passed && r.check.onFail == "drain" ==>
      if "DRAIN" in r.info.flags then sent == []
      else |sent| == 1 && sent[0].write.Drain? && Tells(sent[0].write.reason, r, env))
    && (!r.passed && r.check.onFail == "comment" ==>
      |sent| == 1 && sent[0].write.Comment? && Tells(sent[0].write.text, r, env))
    && (!r.passed && r.check.onFail !in ["drain", "comment"] ==> sent == [])
    && (r.passed && (env.context != "hc_program" || r.check.onOk !in ["undrain", "uncomment"]) ==> sent == [])
    && (r.passed && env.context == "hc_program" && r.check.onOk == "undrain" ==>
      if "DRAIN" in r.info.flags && r.info.reason != "" && r.check.reasonBase <= r.info.reason
      then |sent| == 1 && sent[0].write == Resume else sent == [])
    && (r.passed && env.context == "hc_program" && r.check.onOk == "uncomment" ==>
      if r.info.comment != "" && r.check.reasonBase <= r.info.comment
      then |sent| == 1 && sent[0].write == Uncomment else sent == [])
  }

  /** The sent commands fall into consecutive stretches, one for each check, each the answer to its check. */
  ghost predicate AllAnswered(log: seq<Ran>, issued: seq<Sent>, env: Env) {
    if log == [] then issued == []
    else
      exists k :: 0 <= k <= |issued| && Answers(log[|log| - 1], issued[k..], env) &&
        AllAnswered(log[..|log| - 1], issued[..k], env)
  }

  /** A write that is the reaction is the answer. */
  lemma {:induction false} ReactionAnswers(r: Ran, sent: seq<Sent>, env: Env)
    requires r.write == Reaction(r.check, r.passed, r.details, env, r.info)
    requires sent == if r.write.Some? then [Sent(r.write.value, r.latest)] else []
    ensures Answers(r, sent, env)
  {
    var c, reason := r.check, Reason(r.check, r.details, env);
    assert Tells(reason, r, env) by {
      assert reason == c.reasonBase + (if c.appendDetails && r.details != "" then ": " + r.details else "") +
        " [" + env.context + "]";
    }
  }

  lemma {:induction false} SoundAnswers(log: seq<Ran>, versions: seq<Info>, env: Env, blind: bool)
    requires AllSound(log, versions, env, blind)
    ensures AllAnswered(log, WritesOf(log), env)
  {
    if log != [] {
      var front, r, issued := log[..|log| - 1], log[|log| - 1], WritesOf(log);
      SoundAnswers(front, versions, env, blind);
      var k := |WritesOf(front)|;
      assert Sound(r, versions, env, blind);
      assert issued[..k] == WritesOf(front);
      ReactionAnswers(r, issued[k..], env);
    }
  }

  /** What a sound log says of the whole run. */
  lemma {:induction false} SoundRun(log: seq<Ran>, versions: seq<Info>, env: Env, blind: bool)
    requires AllSound(log, versions, env, blind)
    ensures AllAnswered(log, WritesOf(log), env)
    ensures Undisturbed(log) ==> ResumesJustified(WritesOf(log), log, versions, env)
    ensures Undisturbed(log) && !blind ==> Informed(log, versions, env)
  {
    SoundAnswers(log, versions, env, blind);
    if Undisturbed(log) {
      SoundResumes(log, versions, env, blind);
      if !blind {
        SoundIsInformed(log, versions, env);
      }
    }
  }

  lemma {:induction false} ChecksGrow(sofar: seq<Ran>, log: seq<Ran>, cs: seq<Check>, i: nat)
    requires |log| == |sofar| + 1 && log[..|sofar|] == sofar && i < |cs| && log[|sofar|].check == cs[i]
    ensures ChecksOf(log) == ChecksOf(sofar) + [cs[i]] && cs[..i + 1] == cs[..i] + [cs[i]]
    ensures AllPassed(sofar) && log[|sofar|].passed ==> AllPassed(log)
    ensures AllPassed(sofar) ==> StopsAtFailure(log)
  {
    forall j | 0 <= j < |sofar|
      ensures log[j] == sofar[j]
    {
      assert log[..|sofar|][j] == log[j];
    }
  }

  /** Logging a check whose write was the one called for. */
  lemma {:induction false} LogGrows(log: seq<Ran>, r: Ran, known: seq<Info>, versions: seq<Info>, env: Env,
      blind: bool)
    requires AllSound(log, versions, env, blind) && known != [] && known <= versions
    requires r.write == Reaction(r.check, r.passed, r.details, env, r.info)
    requires Known(r.info, r.own, r.seen, |known| - 1, known, blind || !Consults(r.check, r.passed, env))
    requires |known| <= r.latest + 1 <= |versions|
    ensures AllSound(log + [r], versions, env, blind)
    ensures Undisturbed(log) && r.own == r.latest ==> Undisturbed(log + [r])
    ensures ResultsOf(log + [r]) == ResultsOf(log) + [Result(r.check, r.passed, r.details)]
    ensures WritesOf(log + [r]) == WritesOf(log) + if r.write.Some? then [Sent(r.write.value, r.latest)] else []
  {
    assert (log + [r])[..|log|] == log;
    assert Known(r.info, r.own, r.seen, r.latest, versions, blind || !Consults(r.check, r.passed, env));
  }

  const REAL_MEMORY := "CHECKS_NODE_REAL_MEM_BYTES"

  /** The variable cannot be set without asking for the node. */
  predicate Asks(name: string, memoryKnown: bool, env: Env) {
    || name in ["CHECKS_NODE_STATE_FLAGS", "CHECKS_NODE_REASON", "CHECKS_NODE_COMMENT"]
    || (name == REAL_MEMORY && !memoryKnown && !env.metadata)
  }

  predicate NeedsNode(names: seq<string>, memoryKnown: bool, env: Env) {
    exists i :: 0 <= i < |names| && Asks(names[i], memoryKnown, env)
  }

  /** One variable more; once the memory is known, it is not asked for again. */
  lemma {:induction false} NeedsSnoc(names: seq<string>, i: nat, known: bool, env: Env)
    requires i < |names|
    ensures NeedsNode(names[..i + 1], known, env) <==>
      NeedsNode(names[..i], known, env) || Asks(names[i], known || REAL_MEMORY in names[..i], env)
    ensures REAL_MEMORY in names[..i + 1] <==> REAL_MEMORY in names[..i] || names[i] == REAL_MEMORY
  {
    var front, more := names[..i], names[..i + 1];
    assert more == front + [names[i]];
    if Asks(names[i], known, env) {
      assert Asks(more[i], known, env);
      if REAL_MEMORY in front {
        var k :| 0 <= k < |front| && front[k] == REAL_MEMORY;
      }
    }
    if k :| 0 <= k < |front| && Asks(front[k], known, env) {
      assert Asks(more[k], known, env);
    }
    if k :| 0 <= k < |more| && Asks(more[k], known, env) {
      assert k < i ==> Asks(front[k], known, env);
    }
  }

  predicate InJail(c: Check) {
    c.runInJail
  }

  predicate OnHost(c: Check) {
    !c.runInJail
  }

  lemma {:induction false} FilterHolds(cs: seq<Check>, p: Check -> bool, k: nat)
    requires k < |Filter(cs, p)|
    ensures p(Filter(cs, p)[k])
  {
    var front := cs[..|cs| - 1];
    if k < |Filter(front, p)| {
      FilterHolds(front, p, k);
    }
  }

  /** No check of the host comes after one of the jail. */
  lemma {:induction false} HostFirst(log: seq<Ran>, cs: seq<Check>, i: nat, j: nat)
    requires ChecksOf(log) <= Filter(cs, OnHost) + Filter(cs, InJail) && i < j < |log|
    ensures log[i].check.runInJail ==> log[j].check.runInJail
  {
    var host, jail := Filter(cs, OnHost), Filter(cs, InJail);
    assert log[i].check == ChecksOf(log)[i] == (host + jail)[i];
    assert log[j].check == ChecksOf(log)[j] == (host + jail)[j];
    if i < |host| {
      FilterHolds(cs, OnHost, i);
    } else {
      FilterHolds(cs, InJail, j - |host|);
    }
  }

  datatype Status = Passed | Failed | Crashed

  class Runner {
    const env: Env
    var node: Info
    var cache: Option<Info>
    var memoryKnown: bool
    var future: seq<Turn>
    ghost const quiet: bool
    ghost const smooth: bool
    ghost var versions: seq<Info>
    ghost var own: nat
    ghost var seen: nat
    ghost var log: seq<Ran>
    ghost var issued: seq<Sent>
    ghost var executed: seq<Result>
    ghost var blind: bool

    constructor (env: Env, node: Info, future: seq<Turn>)
      ensures Valid() && this.env == env && log == [] && versions == [node] && cache == None
      ensures quiet == Quiet(future) && smooth == Smooth(future) && issued == [] && executed == [] && !blind
    {
      this.env := env;
      this.node := node;
      cache, memoryKnown := None, false;
      this.future := future;
      quiet, smooth := Quiet(future), Smooth(future);
      versions, own, seen, log, issued, executed, blind := [node], 0, 0, [], [], [], false;
    }

    /** The cache is never older than the run's own last write, and empty only if a query failed. */
    ghost predicate Coherent()
      reads this
    {
      && own < |versions| && versions[|versions| - 1] == node
      && (cache.Some? ==> Known(cache.value, own, seen, |versions| - 1, versions, blind))
      && AllSound(log, versions, env, blind)
      && (quiet ==> Quiet(future) && own == |versions| - 1 && Undisturbed(log))
      && (smooth ==> Smooth(future))
    }

    /** The log accounts for every check command that ran and every write that was sent, in order. */
    ghost predicate Valid()
      reads this
    {
      Coherent() && issued == WritesOf(log) && executed == ResultsOf(log)
    }

    /** The other writers act, then an external command meets its result. */
    method NextTurn() returns (t: Turn)
      requires Coherent()
      modifies `node, `future, `versions
      ensures Coherent() && old(versions) <= versions && (smooth ==> !t.raised)
      ensures old(future) != [] ==> t == old(future)[0]
      ensures old(future) == [] ==> t.ok && !t.raised
    {
      if future == [] {
        return Turn([], false, true, node, "");
      }
      t := future[0];
      future := future[1..];
      versions := versions + t.foreign;
      if t.foreign != [] {
        node := t.foreign[|t.foreign| - 1];
      }
    }

    method GetNodeInfo() returns (info: Info)
      requires Coherent()
      modifies `node, `future, `versions, `cache, `seen, `blind
      ensures Coherent() && old(versions) <= versions && cache == Some(info) && (old(blind) ==> blind)
      ensures old(cache).Some? ==>
        info == old(cache).value && blind == old(blind) && future == old(future) && node == old(node)
      ensures old(cache).None? ==>
        if old(future) == [] || (old(future)[0].ok && !old(future)[0].raised)
        then info == node && blind == old(blind) else info == NO_INFO && blind
      ensures quiet && !blind ==> info == old(node)
    {
      if cache.Some? {
        return cache.value;
      }
      var t := NextTurn();
      info := if t.ok && !t.raised then node else NO_INFO;
      cache := Some(info);
      seen := |versions| - 1;
      blind := blind || !t.ok || t.raised;
    }

    /** Sends a write to the node; unless the command could not be started, the cache is dropped. */
    method Issue(write: Write) returns (started: bool, ghost latest: nat)
      requires Coherent()
      modifies `node, `future, `versions, `cache, `own, `issued
      ensures Coherent() && old(versions) <= versions && issued == old(issued) + [Sent(write, latest)]
      ensures |old(versions)| <= latest + 1 <= |versions| && (quiet ==> latest == old(own))
      ensures if started then cache == None else cache == old(cache) && own == old(own) && latest + 1 == |versions|
      ensures own != old(own) ==> own == |versions| - 1 == latest + 1
    {
      var t := NextTurn();
      latest := |versions| - 1;
      issued := issued + [Sent(write, latest)];
      started := !t.raised;
      if !started {
        return;
      }
      if t.ok {
        node := t.after;
        versions := versions + [node];
        own := |versions| - 1;
      }
      cache := None;
    }

    /** Sets one variable, asking for the node if need be. */
    method ExportVariable(name: string)
      requires Coherent()
      modifies `node, `future, `versions, `cache, `seen, `memoryKnown, `blind
      ensures Coherent() && old(versions) <= versions && (old(blind) ==> blind)
      ensures cache.Some? <==> old(cache).Some? || Asks(name, old(memoryKnown), env)
      ensures old(cache).Some? || !Asks(name, old(memoryKnown), env) ==>
        future == old(future) && node == old(node) && cache == old(cache)
      ensures memoryKnown <==> old(memoryKnown) || name == REAL_MEMORY
    {
      var memory := name == REAL_MEMORY && !memoryKnown;
      if memory {
        memoryKnown := true;
      }
      if name == "CHECKS_NODE_STATE_FLAGS" || name == "CHECKS_NODE_REASON" || name == "CHECKS_NODE_COMMENT" ||
        (memory && !env.metadata) {
        var info := GetNodeInfo();
      }
    }

    /** Asks for the node once if a variable needs it, and for the memory once in the run. */
    method ExportNeededEnv(c: Check)
      requires Coherent()
      modifies `node, `future, `versions, `cache, `seen, `memoryKnown, `blind
      ensures Coherent() && old(versions) <= versions && (old(blind) ==> blind)
      ensures cache.Some? <==> old(cache).Some? || NeedsNode(c.needEnv, old(memoryKnown), env)
      ensures old(cache).Some? || !NeedsNode(c.needEnv, old(memoryKnown), env) ==>
        future == old(future) && node == old(node) && cache == old(cache)
      ensures memoryKnown <==> old(memoryKnown) || REAL_MEMORY in c.needEnv
    {
      for i := 0 to |c.needEnv|
        invariant Coherent() && old(versions) <= versions && (old(blind) ==> blind)
        invariant cache.Some? <==> old(cache).Some? || NeedsNode(c.needEnv[..i], old(memoryKnown), env)
        invariant old(cache).Some? || !NeedsNode(c.needEnv[..i], old(memoryKnown), env) ==>
          future == old(future) && node == old(node) && cache == old(cache)
        invariant memoryKnown <==> old(memoryKnown) || REAL_MEMORY in c.needEnv[..i]
      {
        NeedsSnoc(c.needEnv, i, old(memoryKnown), env);
        ExportVariable(c.needEnv[i]);
      }
      assert c.needEnv[..|c.needEnv|] == c.needEnv;
    }

    /** The write that the result calls for, and the knowledge of the node it rests on. */
    method Decide(c: Check, passed: bool, details: string) returns (write: Option<Write>, info: Info)
      requires Coherent()
      modifies `node, `future, `versions, `cache, `seen, `blind
      ensures Coherent() && old(versions) <= versions && (old(blind) ==> blind)
      ensures write == Reaction(c, passed, details, env, info)
      ensures Consults(c, passed, env) ==> cache == Some(info)
      ensures Known(info, own, seen, |versions| - 1, versions, blind || !Consults(c, passed, env))
    {
      write, info := None, NO_INFO;
      if !passed {
        if c.onFail == "drain" {
          info := GetNodeInfo();
          if "DRAIN" !in info.flags {
            write := Some(Drain(Reason(c, details, env)));
          }
        } else if c.onFail == "comment" {
          write := Some(Comment(Reason(c, details, env)));
        }
        return;
      }
      if env.context != "hc_program" {
        return;
      }
      if c.onOk == "undrain" {
        info := GetNodeInfo();
        if "DRAIN" in info.flags && SameReason(info.reason, c) {
          write := Some(Resume);
        }
      } else if c.onOk == "uncomment" {
        info := GetNodeInfo();
        if SameReason(info.comment, c) {
          write := Some(Uncomment);
        }
      }
    }

    /** Sends the write, if there is one. */
    method Send(write: Option<Write>) returns (ghost latest: nat)
      requires Coherent()
      modifies `node, `future, `versions, `cache, `own, `issued
      ensures Coherent() && old(versions) <= versions && |old(versions)| <= latest + 1 <= |versions|
      ensures issued == old(issued) + if write.Some? then [Sent(write.value, latest)] else []
      ensures quiet ==> latest == old(own)
    {
      latest := |versions| - 1;
      if write.Some? {
        var started;
        started, latest := Issue(write.value);
      }
    }

    /** Runs the check's command; a crash comes before it. */
    method Execute(c: Check) returns (crashed: bool, passed: bool, details: string)
      requires Coherent()
      modifies `node, `future, `versions, `executed
      ensures Coherent() && old(versions) <= versions && (crashed ==> !smooth)
      ensures executed == if crashed then old(executed) else old(executed) + [Result(c, passed, details)]
      ensures old(future) != [] ==> crashed == old(future)[0].raised && passed == old(future)[0].ok
      ensures old(future) != [] ==> details == old(future)[0].details
    {
      var t := NextTurn();
      crashed, passed, details := t.raised, t.ok, t.details;
      if !crashed {
        executed := executed + [Result(c, passed, details)];
      }
    }

    /** Sends what the result calls for and logs the check with it. */
    method React(c: Check, passed: bool, details: string)
      requires Coherent() && issued == WritesOf(log) && executed == ResultsOf(log) + [Result(c, passed, details)]
      modifies this
      ensures Valid() && executed == old(executed) && |log| == |old(log)| + 1 && log[..|old(log)|] == old(log)
      ensures old(issued) <= issued && Answers(log[|old(log)|], issued[|old(issued)|..], env)
      ensures old(blind) ==> blind
    {
      var write, info := Decide(c, passed, details);
      ghost var before, from, known := own, seen, versions;
      ghost var latest := Send(write);
      Record(Ran(c, passed, details, write, info, before, from, latest), known);
      ReactionAnswers(log[|old(log)|], issued[|old(issued)|..], env);
    }

    /** Logs a check whose command and write are on record. */
    ghost method Record(r: Ran, known: seq<Info>)
      requires Coherent() && executed == ResultsOf(log) + [Result(r.check, r.passed, r.details)]
      requires issued == WritesOf(log) + if r.write.Some? then [Sent(r.write.value, r.latest)] else []
      requires r.write == Reaction(r.check, r.passed, r.details, env, r.info)
      requires known != [] && known <= versions
      requires Known(r.info, r.own, r.seen, |known| - 1, known, blind || !Consults(r.check, r.passed, env))
      requires |known| <= r.latest + 1 <= |versions|
      requires quiet ==> r.own == r.latest
      modifies `log
      ensures Valid() && log == old(log) + [r]
    {
      LogGrows(log, r, known, versions, env, blind);
      log := log + [r];
    }

    /** Runs one check and reacts; a crash ends the run before any reaction. */
    method RunCheck(c: Check) returns (status: Status)
      requires Valid()
      modifies this
      ensures Valid() && (old(blind) ==> blind)
      ensures status.Crashed? ==> log == old(log) && !smooth
      ensures !status.Crashed? ==> |log| == |old(log)| + 1 && log[..|old(log)|] == old(log)
      ensures !status.Crashed? ==> log[|old(log)|].check == c && log[|old(log)|].passed == status.Passed?
    {
      ExportNeededEnv(c);
      var crashed, passed, details := Execute(c);
      if crashed {
        return Crashed;
      }
      React(c, passed, details);
      assert ResultsOf(log)[|old(log)|] == Result(c, passed, details);
      status := if passed then Passed else Failed;
    }

    /** Runs checks in order, and stops at the first one that does not pass. */
    method RunAll(cs: seq<Check>) returns (status: Status)
      requires Valid() && AllPassed(log)
      modifies this
      ensures Valid() && StopsAtFailure(log) && (old(blind) ==> blind)
      ensures old(ChecksOf(log)) <= ChecksOf(log) <= old(ChecksOf(log)) + cs
      ensures status.Passed? ==> AllPassed(log) && ChecksOf(log) == old(ChecksOf(log)) + cs
      ensures status.Failed? ==> log != [] && !log[|log| - 1].passed
      ensures status.Crashed? ==> AllPassed(log) && !smooth
    {
      for i := 0 to |cs|
        invariant Valid() && AllPassed(log) && (old(blind) ==> blind)
        invariant ChecksOf(log) == old(ChecksOf(log)) + cs[..i]
      {
        ghost var sofar := log;
        status := RunCheck(cs[i]);
        if status.Crashed? {
          return;
        }
        ChecksGrow(sofar, log, cs, i);
        if status.Failed? {
          return;
        }
      }
      status := Passed;
    }

    method FilterApplicableChecks(cs: seq<Check>) returns (applicable: seq<Check>, ghost info: Info)
      requires Valid()
      modifies `node, `future, `versions, `cache, `seen, `blind
      ensures Valid() && applicable == Filter(cs, Applies(env, info)) && (old(blind) ==> blind)
      ensures NoStateMatters(Prefiltered(cs, env)) || cache == Some(info)
      ensures quiet && !blind ==> info == old(node)
    {
      var left := Prefiltered(cs, env);
      info := node;
      if !NoStateMatters(left) {
        var asked := GetNodeInfo();
        info := asked;
        applicable := Filter(left, StateFits(asked));
      } else {
        applicable := left;
      }
      FilterChain(cs, env, info);
    }

    /** A non-empty group is entered, then run. */
    method RunGroup(cs: seq<Check>) returns (status: Status)
      requires Valid() && AllPassed(log)
      modifies this
      ensures Valid() && StopsAtFailure(log) && (old(blind) ==> blind)
      ensures old(ChecksOf(log)) <= ChecksOf(log) <= old(ChecksOf(log)) + cs
      ensures status.Passed? ==> AllPassed(log) && ChecksOf(log) == old(ChecksOf(log)) + cs
      ensures status.Failed? ==> log != [] && !log[|log| - 1].passed
      ensures status.Crashed? ==> AllPassed(log) && !smooth
    {
      if cs == [] {
        return Passed;
      }
      var t := NextTurn();
      if t.raised {
        return Crashed;
      }
      status := RunAll(cs);
    }

    /** The applicable checks in their two groups. */
    method Choose(cs: seq<Check>) returns (host: seq<Check>, jail: seq<Check>, ghost applicable: seq<Check>,
        ghost info: Info)
      requires Valid()
      modifies `node, `future, `versions, `cache, `seen, `blind
      ensures Valid() && applicable == Filter(cs, Applies(env, info))
      ensures NoStateMatters(Prefiltered(cs, env)) || cache == Some(info)
      ensures quiet && !blind ==> info == old(node)
      ensures host == Filter(applicable, OnHost) && jail == Filter(applicable, InJail)
    {
      var chosen;
      chosen, info := FilterApplicableChecks(cs);
      applicable := chosen;
      host, jail := Filter(chosen, OnHost), Filter(chosen, InJail);
    }

    /** One group, then, if it passed, the other. */
    method RunGroups(host: seq<Check>, jail: seq<Check>) returns (status: Status)
      requires Valid() && log == []
      modifies this
      ensures Valid() && StopsAtFailure(log) && ChecksOf(log) <= host + jail && (old(blind) ==> blind)
      ensures status.Passed? ==> AllPassed(log) && ChecksOf(log) == host + jail
      ensures status.Failed? <==> log != [] && !log[|log| - 1].passed
      ensures status.Crashed? ==> !smooth
    {
      assert ChecksOf(log) == [];
      status := RunGroup(host);
      if status.Passed? {
        status := RunGroup(jail);
      }
    }

    /** What the record says of the whole run. */
    lemma Account()
      requires Valid()
      ensures AllAnswered(log, issued, env)
      ensures quiet ==> ResumesJustified(issued, log, versions, env)
      ensures quiet && !blind ==> Informed(log, versions, env)
    {
      SoundRun(log, versions, env, blind);
    }

    /**
     The whole run: the applicable host checks, then the jail checks, each in the given order, up
     to the first failure; only a command that cannot be started ends it earlier. Every check is
     answered by the commands its result calls for. Without other writers, every resume that is
     sent is justified by the node as it is at that moment, and unless a query failed the checks
     are chosen and answered by the node as it is.
     */
    method RunChecks(cs: seq<Check>) returns (exit: int, status: Status, ghost applicable: seq<Check>, ghost info: Info)
      requires Valid() && log == []
      modifies this
      ensures Valid() && StopsAtFailure(log)
      ensures applicable == Filter(cs, Applies(env, info))
      ensures ChecksOf(log) <= Filter(applicable, OnHost) + Filter(applicable, InJail)
      ensures status.Passed? ==>
        AllPassed(log) && ChecksOf(log) == Filter(applicable, OnHost) + Filter(applicable, InJail)
      ensures status.Failed? <==> log != [] && !log[|log| - 1].passed
      ensures status.Crashed? ==> !smooth
      ensures exit == if status.Failed? && env.context == "prolog" then 1 else 0
      ensures AllAnswered(log, issued, env)
      ensures quiet ==> ResumesJustified(issued, log, versions, env)
      ensures quiet && !blind ==> Informed(log, versions, env) && info == old(node)
    {
      var host, jail;
      host, jail, applicable, info := Choose(cs);
      status := RunGroups(host, jail);
      exit := if status.Failed? && env.context == "prolog" then 1 else 0;
      Account();
    }
  }
}
