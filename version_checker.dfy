/**
 * VersionChecker: the version shown in the UI and the update check against the latest GitHub
 * release.
 *
 * System.Version is a type parameter V: its text form, its parsing and its comparison are given
 * as functions, and the development version 1.0.0.0 as a value. The HTTP request is an input:
 * each attempt of the update loop receives the release tag or the kind of exception the request
 * raised. Task.Delay is seen through the delays awaited between attempts, in seconds.
 */
module VersionChecker {
  import opened Common

  /** The values VersionCheckState takes. */
  datatype CheckState = NotRun | DevDisabled | NewVersionFound | UpToDate | ParseFailed | CheckFailed

  /** The text VersionCheckState shows for each state. */
  function StateText(state: CheckState): string
  {
    match state
    case NotRun => "Version check not ran yet"
    case DevDisabled => "Version check disabled (Dev)"
    case NewVersionFound => "A new version is available!"
    case UpToDate => "Currently up-to-date"
    case ParseFailed => "Failed to parse latest version"
    case CheckFailed => "Version check failed"
  }

  /** Different states show different texts, so the text tells the state. */
  lemma StateTextInjective(a: CheckState, b: CheckState)
    ensures StateText(a) == StateText(b) ==> a == b
  {
    if a != b {
      assert |StateText(a)| != |StateText(b)| || StateText(a)[0] != StateText(b)[0];
    }
  }

  /** TimeSpan.FromHours(24) and TimeSpan.FromSeconds(60), in seconds. */
  const DaySeconds: nat := 24 * 60 * 60
  const MinuteSeconds: nat := 60

  /**
   * VersionString: "unknown" without a version, "Dev" for the development version, otherwise
   * "v" followed by the version's text.
   */
  function VersionString<V(==)>(appVersion: Option<V>, devVersion: V, versionText: V -> string): (r: string)
    ensures appVersion.None? <==> r == "unknown"
    ensures (appVersion == Some(devVersion)) <==> r == "Dev"
    ensures appVersion.Some? && appVersion.value != devVersion <==> (|r| > 0 && r[0] == 'v')
    ensures appVersion.Some? && appVersion.value != devVersion ==> r[1..] == versionText(appVersion.value)
  {
    if appVersion.Some? then
      if appVersion.value == devVersion then "Dev"
      else
        var r := "v" + versionText(appVersion.value);
        assert r[0] == 'v' && "unknown"[0] == 'u' && "Dev"[0] == 'D';
        r
    else "unknown"
  }

  /** What one request of the update loop gives: the release tag, or the exception it raised. */
  datatype Fetch = Tag(tag: string) | HttpRequestFailed | OtherFailure

  /** After an attempt the loop either ends or waits the given number of seconds. */
  datatype Step = Done | RetryAfter(seconds: nat)

  /** The effect of one attempt: the new VersionCheckState, whether a newer version was seen, and the next step. */
  datatype Outcome = Outcome(state: CheckState, newVersion: bool, step: Step)

  /**
   * One pass of the RunUpdateChecker loop. A tag is "v" and a version; a tag without the "v"
   * ends the loop, a newer version ends it and reports the update, an older or equal one waits a
   * day. A version that does not parse counts as a failure other than HTTP, like every exception
   * but HttpRequestException, and waits a day; an HTTP failure waits a minute.
   */
  function CheckOnce<V>(appVersion: V, fetch: Fetch, parse: string -> Option<V>, newer: (V, V) -> bool): (r: Outcome)
  {
    match fetch
    case Tag(tag) =>
      if |tag| > 0 && tag[0] == 'v' then
        match parse(tag[1..])
        case None => Outcome(CheckFailed, false, RetryAfter(DaySeconds))
        case Some(latest) =>
          if newer(latest, appVersion) then Outcome(NewVersionFound, true, Done)
          else Outcome(UpToDate, false, RetryAfter(DaySeconds))
      else Outcome(ParseFailed, false, Done)
    case HttpRequestFailed => Outcome(CheckFailed, false, RetryAfter(MinuteSeconds))
    case OtherFailure => Outcome(CheckFailed, false, RetryAfter(DaySeconds))
  }

  /** What one attempt gives, case by case. */
  lemma CheckOnceSpec<V>(appVersion: V, fetch: Fetch, parse: string -> Option<V>, newer: (V, V) -> bool)
    ensures var r := CheckOnce(appVersion, fetch, parse, newer);
      && (r.newVersion <==>
            fetch.Tag? && StartsWith(fetch.tag, "v") && parse(fetch.tag[1..]).Some? && newer(parse(fetch.tag[1..]).value, appVersion))
      && (r.step == Done <==> r.newVersion || (fetch.Tag? && !StartsWith(fetch.tag, "v")))
      && (r.step == RetryAfter(MinuteSeconds) <==> fetch == HttpRequestFailed)
      && (r.step.RetryAfter? ==> r.step.seconds == MinuteSeconds || r.step.seconds == DaySeconds)
      && (r.state == CheckFailed <==> !fetch.Tag? || (StartsWith(fetch.tag, "v") && parse(fetch.tag[1..]).None?))
  {
    if fetch.Tag? && |fetch.tag| > 0 && fetch.tag[0] == 'v' {
      assert StartsWith(fetch.tag, "v") by { assert fetch.tag[..1] == [fetch.tag[0]]; }
    }
  }

  predicate IsDone(o: Outcome)
  {
    o.step == Done
  }

  /** The outcomes of the attempts, each taken on its own. */
  function Outcomes<V>(appVersion: V, attempts: seq<Fetch>, parse: string -> Option<V>, newer: (V, V) -> bool): (r: seq<Outcome>)
    ensures |r| == |attempts| && forall j :: 0 <= j < |r| ==> r[j] == CheckOnce(appVersion, attempts[j], parse, newer)
  {
    seq(|attempts|, j requires 0 <= j < |attempts| => CheckOnce(appVersion, attempts[j], parse, newer))
  }

  /** The number of attempts the loop makes: up to the first that ends it, or all of them. */
  function AttemptsMade(outcomes: seq<Outcome>): (n: nat)
    ensures n <= |outcomes|
  {
    match FirstIndex(outcomes, IsDone)
    case Some(k) => k + 1
    case None => |outcomes|
  }

  class VersionChecker<V(==)> {
    const appVersion: Option<V>
    const devVersion: V
    var newVersionAvailable: bool
    var versionCheckState: CheckState
    /** Task.Run(RunUpdateChecker) was called. */
    var updateCheckerStarted: bool

    constructor (appVersion: Option<V>, devVersion: V)
      ensures this.appVersion == appVersion && this.devVersion == devVersion
      ensures !newVersionAvailable && versionCheckState == NotRun && !updateCheckerStarted
    {
      this.appVersion := appVersion;
      this.devVersion := devVersion;
      newVersionAvailable := false;
      versionCheckState := NotRun;
      updateCheckerStarted := false;
    }

    /** RunVersionChecker: nothing without a version; the development version disables the check; otherwise it starts. */
    method RunVersionChecker()
      modifies this
      ensures appVersion.None? ==> unchanged(this)
      ensures appVersion == Some(devVersion) ==>
        versionCheckState == DevDisabled && updateCheckerStarted == old(updateCheckerStarted)
      ensures appVersion.Some? && appVersion.value != devVersion ==>
        updateCheckerStarted && versionCheckState == old(versionCheckState)
      ensures newVersionAvailable == old(newVersionAvailable)
    {
      if appVersion.Some? {
        if appVersion.value == devVersion {
          versionCheckState := DevDisabled;
        } else {
          updateCheckerStarted := true;
        }
      }
    }

    /**
     * RunUpdateChecker over the given attempts: the loop stops at the first attempt that ends it
     * and waits between the others. The state is the last attempt's, and NewVersionAvailable is
     * set once a newer version is seen. When every attempt asks for a retry the loop is still
     * running at the end.
     */
    method RunUpdateChecker(attempts: seq<Fetch>, parse: string -> Option<V>, newer: (V, V) -> bool)
      returns (delays: seq<nat>, finished: bool)
      requires appVersion.Some?
      modifies this
      ensures var outcomes := Outcomes(appVersion.value, attempts, parse, newer);
        var n := AttemptsMade(outcomes);
        && (finished <==> FirstIndex(outcomes, IsDone).Some?)
        && |delays| == (if finished then n - 1 else n)
        && (forall j :: 0 <= j < |delays| ==> outcomes[j].step == RetryAfter(delays[j]))
        && versionCheckState == (if n == 0 then old(versionCheckState) else outcomes[n - 1].state)
        && newVersionAvailable == (old(newVersionAvailable) || (n > 0 && outcomes[n - 1].newVersion))
      ensures updateCheckerStarted == old(updateCheckerStarted)
    {
      delays, finished, versionCheckState, newVersionAvailable :=
        RunAttempts(appVersion.value, attempts, parse, newer, versionCheckState, newVersionAvailable);
    }
  }

  /**
   * The loop of RunUpdateChecker, from VersionCheckState state0 and NewVersionAvailable
   * newVersion0: it gives the delays awaited, whether the loop ended, and the two properties after it.
   */
  method RunAttempts<V>(appVersion: V, attempts: seq<Fetch>, parse: string -> Option<V>, newer: (V, V) -> bool,
                        state0: CheckState, newVersion0: bool)
    returns (delays: seq<nat>, finished: bool, state: CheckState, newVersion: bool)
    ensures var outcomes := Outcomes(appVersion, attempts, parse, newer);
      var n := AttemptsMade(outcomes);
      && (finished <==> FirstIndex(outcomes, IsDone).Some?)
      && |delays| == (if finished then n - 1 else n)
      && (forall j :: 0 <= j < |delays| ==> outcomes[j].step == RetryAfter(delays[j]))
      && state == (if n == 0 then state0 else outcomes[n - 1].state)
      && newVersion == (newVersion0 || (n > 0 && outcomes[n - 1].newVersion))
  {
    ghost var outcomes := Outcomes(appVersion, attempts, parse, newer);
    state, newVersion := state0, newVersion0;
    delays := [];
    finished := false;
    var i := 0;
    while i < |attempts|
      invariant 0 <= i <= |attempts| && |delays| == i && !finished
      invariant forall j :: 0 <= j < i ==> outcomes[j].step == RetryAfter(delays[j])
      invariant state == (if i == 0 then state0 else outcomes[i - 1].state)
      invariant newVersion == (newVersion0 || (i > 0 && outcomes[i - 1].newVersion))
    {
      var outcome := CheckOnce(appVersion, attempts[i], parse, newer);
      assert outcome == outcomes[i];
      if outcome.newVersion {
        newVersion := true;
      }
      state := outcome.state;
      if outcome.step.Done? {
        finished := true;
        break;
      }
      delays := delays + [outcome.step.seconds];
      i := i + 1;
    }
    if finished {
      FirstDoneAt(outcomes, i);
    } else {
      NoneDone(outcomes);
    }
  }

  /** An outcome that ends the loop after only retries is the first to end it. */
  lemma FirstDoneAt(outcomes: seq<Outcome>, i: nat)
    requires i < |outcomes| && IsDone(outcomes[i])
    requires forall j :: 0 <= j < i ==> outcomes[j].step.RetryAfter?
    ensures FirstIndex(outcomes, IsDone) == Some(i)
  {
    assert forall j :: 0 <= j < i ==> !IsDone(outcomes[j]);
  }

  /** Attempts that all ask for a retry never end the loop. */
  lemma NoneDone(outcomes: seq<Outcome>)
    requires forall j :: 0 <= j < |outcomes| ==> outcomes[j].step.RetryAfter?
    ensures FirstIndex(outcomes, IsDone).None?
  {
  }

  /** A newer release ends the check at once and reports it. */
  lemma NewerReleaseEndsCheck<V>(appVersion: V, tag: string, parse: string -> Option<V>, newer: (V, V) -> bool)
    requires StartsWith(tag, "v") && parse(tag[1..]).Some? && newer(parse(tag[1..]).value, appVersion)
    ensures CheckOnce(appVersion, Tag(tag), parse, newer) == Outcome(NewVersionFound, true, Done)
  {
  }

  /** A tag without the leading "v" ends the check with a parse failure. */
  lemma UnprefixedTagEndsCheck<V>(appVersion: V, tag: string, parse: string -> Option<V>, newer: (V, V) -> bool)
    requires !StartsWith(tag, "v")
    ensures CheckOnce(appVersion, Tag(tag), parse, newer) == Outcome(ParseFailed, false, Done)
  {
  }
}
