/** The module-level `builds` dictionary, fetchBuildStatus (which consults it
    before fetching) and saveBuildStatus (which updates it in place and
    rewrites builds.json). */
module Cache {
  import opened Wrappers
  import opened Aggregation
  import opened Api

  /** The value each step of the chain resolves to. */
  datatype BuildStatus = BuildStatus(commitsh: string, status: string)

  /** What the curl process gives back.  `Body(None)` is an output on which
      the callback throws: one that is not a JSON array (an empty body,
      invalid JSON, an error object such as `{"message": ...}`, `null`), or
      an array in which one of the two `find` calls reaches a `null` element.
      A non-null primitive element has no `status` and reads as
      `JobRecord(None)`. */
  datatype CurlResult = CurlErr(stderr: string) | Body(statuses: Option<seq<JobRecord>>)

  /** How fetchBuildStatus settles, and the curl command it issued, if any. */
  datatype Fetch = Fetch(settled: Settled<BuildStatus>, request: Option<string>)

  class BuildCache {
    /** The parsed builds.json, commit id to status text. */
    var builds: map<string, string>
    /** What builds.json holds, as last written. */
    var stored: map<string, string>

    /** The state after index.js has read builds.json at start-up. */
    constructor (loaded: map<string, string>)
      ensures builds == loaded && stored == loaded
    {
      builds := loaded;
      stored := loaded;
    }

    /** `builds[commitsh]` when it is truthy: a present, non-empty entry. */
    function Cached(commitsh: string): (r: Option<string>)
      reads this
      ensures r.Some? <==> commitsh in builds && builds[commitsh] != ""
      ensures r.Some? ==> r.value == builds[commitsh]
    {
      if commitsh in builds && builds[commitsh] != "" then Some(builds[commitsh]) else None
    }

    /** fetchBuildStatus.  A cache hit resolves to the cached text and issues
        no request; a miss issues the curl command for the statuses URL and
        settles as curl does: rejected with its stderr, thrown on an
        unparseable body, or resolved to the aggregate of the records. */
    function FetchBuildStatus(config: Config, curl: string -> CurlResult, commitsh: string): (r: Fetch)
      reads this
      ensures Cached(commitsh).Some? ==>
        r == Fetch(Resolved(BuildStatus(commitsh, builds[commitsh])), None)
      ensures Cached(commitsh).None? ==>
        r.request == Some(CurlCommand(config, StatusesUrl(config, commitsh)))
      ensures r.settled.Resolved? ==> r.settled.value.commitsh == commitsh
      ensures r.settled.Rejected? <==> r.request.Some? && curl(r.request.value).CurlErr?
      ensures r.settled.Rejected? ==> r.settled.reason == curl(r.request.value).stderr
      ensures r.settled.Crashed? <==> r.request.Some? && curl(r.request.value) == Body(None)
      ensures r.request.Some? && curl(r.request.value).Body? && curl(r.request.value).statuses.Some? ==>
        r.settled == Resolved(BuildStatus(commitsh, Text(Aggregate(curl(r.request.value).statuses.value))))
    {
      match Cached(commitsh)
      case Some(status) => Fetch(Resolved(BuildStatus(commitsh, status)), None)
      case None =>
        var cmd := CurlCommand(config, StatusesUrl(config, commitsh));
        var settled :=
          match curl(cmd)
          case CurlErr(e) => Rejected(e)
          case Body(None) => Crashed
          case Body(Some(statuses)) => Resolved(BuildStatus(commitsh, Text(Aggregate(statuses))));
        Fetch(settled, Some(cmd))
    }

    /** saveBuildStatus: sets one entry in place, rewrites the whole file
        from the dictionary and hands its argument on unchanged. */
    method SaveBuildStatus(buildStatus: BuildStatus) returns (r: BuildStatus)
      modifies this
      ensures builds == old(builds)[buildStatus.commitsh := buildStatus.status]
      ensures buildStatus.commitsh in builds && builds[buildStatus.commitsh] == buildStatus.status
      ensures forall k :: k != buildStatus.commitsh ==>
        (k in builds <==> k in old(builds)) && (k in builds ==> builds[k] == old(builds)[k])
      ensures stored == builds
      ensures r == buildStatus
    {
      builds := builds[buildStatus.commitsh := buildStatus.status];
      stored := builds;
      r := buildStatus;
    }
  }

  /** Saving what a cache hit resolved to writes back the entry that was
      already there: the dictionary is left as it was. */
  lemma SaveAfterHitKeepsBuilds(builds: map<string, string>, commitsh: string)
    requires commitsh in builds
    ensures builds[commitsh := builds[commitsh]] == builds
  {
  }
}
