/** The promise chain at the bottom of index.js:
    getCurrentBranch, getCommitshForUpstream, fetchBuildStatus,
    saveBuildStatus, printStatus. */
module Cli {
  import opened Wrappers
  import opened Vcs
  import opened Api
  import opened Cache
  import opened Presenter

  /** How one run ends.  The chain has no rejection handler, so a rejection
      ends it unhandled with nothing printed by the program. */
  datatype Outcome = Printed(glyph: Glyph) | Unhandled(reason: string) | Threw

  /** One run of the command against the loaded cache.  `git` and `curl` stand
      for what each command line prints; `commands` lists the command lines
      run, in order. */
  method Run(cache: BuildCache, config: Config, git: string -> ExecResult, curl: string -> CurlResult)
    returns (outcome: Outcome, commands: seq<string>)
    modifies cache
    ensures GetCurrentBranch(git).Rejected? ==>
      outcome == Unhandled(GetCurrentBranch(git).reason) && commands == [CurrentBranchCommand] &&
      unchanged(cache)
    ensures GetCurrentBranch(git).Resolved? ==>
      var branch := GetCurrentBranch(git).value;
      var upstream := GetCommitshForUpstream(git, branch);
      |commands| >= 2 && commands[..2] == [CurrentBranchCommand, OriginCommitCommand(branch)] &&
      (upstream.Rejected? ==>
        outcome == Unhandled(upstream.reason) && |commands| == 2 && unchanged(cache)) &&
      (upstream.Resolved? ==>
        var fetch := old(cache.FetchBuildStatus(config, curl, upstream.value));
        commands[2..] == (if fetch.request.Some? then [fetch.request.value] else []) &&
        (fetch.settled.Rejected? ==> outcome == Unhandled(fetch.settled.reason) && unchanged(cache)) &&
        (fetch.settled.Crashed? ==> outcome == Threw && unchanged(cache)) &&
        (fetch.settled.Resolved? ==>
          cache.builds == old(cache.builds)[upstream.value := fetch.settled.value.status] &&
          cache.stored == cache.builds &&
          outcome == Printed(PrintStatus(fetch.settled.value.status))))
    ensures outcome.Printed? ==> cache.stored == cache.builds
    ensures forall c ::
      (GetCurrentBranch(git).Resolved? &&
       GetCommitshForUpstream(git, GetCurrentBranch(git).value) == Resolved(c) &&
       old(cache.Cached(c)).Some?) ==>
        cache.builds == old(cache.builds) && |commands| == 2 &&
        outcome == Printed(PrintStatus(old(cache.builds)[c]))
  {
    var branch := GetCurrentBranch(git);
    commands := [CurrentBranchCommand];
    if branch.Rejected? {
      return Unhandled(branch.reason), commands;
    }
    commands := commands + [OriginCommitCommand(branch.value)];
    var commitsh := GetCommitshForUpstream(git, branch.value);
    if commitsh.Rejected? {
      return Unhandled(commitsh.reason), commands;
    }
    var fetch := cache.FetchBuildStatus(config, curl, commitsh.value);
    if fetch.request.Some? {
      commands := commands + [fetch.request.value];
    }
    match fetch.settled
    case Rejected(e) =>
      outcome := Unhandled(e);
    case Crashed =>
      outcome := Threw;
    case Resolved(status) =>
      var saved := cache.SaveBuildStatus(status);
      if old(cache.Cached(commitsh.value)).Some? {
        SaveAfterHitKeepsBuilds(old(cache.builds), commitsh.value);
      }
      outcome := Printed(PrintStatus(saved.status));
  }
}
