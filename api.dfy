/** The statuses request of fetchBuildStatus: its URL template and the curl
    command line that carries it. */
module Api {
  import opened Wrappers

  /** The parsed config.json.  `projectId` is the text the template literal
      renders for it. */
  datatype Config = Config(url: string, projectId: string, privateToken: string)

  /** Everything of the URL that comes before the commit id. */
  function CommitsPrefix(config: Config): string
  {
    config.url + "/api/v4/projects/" + config.projectId + "/repository/commits/"
  }

  const StatusesSuffix: string := "/statuses"

  /** `${url}/api/v4/projects/${projectId}/repository/commits/${commitsh}/statuses`:
      the commit id is spliced in verbatim, with no escaping. */
  function StatusesUrl(config: Config, commitsh: string): (u: string)
    ensures |u| == |CommitsPrefix(config)| + |commitsh| + |StatusesSuffix|
    ensures u[..|config.url|] == config.url
    ensures u[..|CommitsPrefix(config)|] == CommitsPrefix(config)
    ensures u[|CommitsPrefix(config)|..|u| - |StatusesSuffix|] == commitsh
    ensures u[|u| - |StatusesSuffix|..] == StatusesSuffix
  {
    var p := CommitsPrefix(config);
    var u := p + commitsh + StatusesSuffix;
    assert u[..|p|] == p;
    assert u[|p|..|u| - |StatusesSuffix|] == commitsh;
    assert u[..|config.url|] == p[..|config.url|];
    u
  }

  /** Reads the commit id back out of a statuses URL of this config. */
  function CommitOfUrl(config: Config, u: string): (r: Option<string>)
  {
    var p := CommitsPrefix(config);
    if |u| >= |p| + |StatusesSuffix| && u[..|p|] == p && u[|u| - |StatusesSuffix|..] == StatusesSuffix
    then Some(u[|p|..|u| - |StatusesSuffix|])
    else None
  }

  /** The URL names its commit: it can be read back, so two commits never
      share a URL. */
  lemma StatusesUrlRoundTrip(config: Config, commitsh: string)
    ensures CommitOfUrl(config, StatusesUrl(config, commitsh)) == Some(commitsh)
  {
  }

  lemma StatusesUrlInjective(config: Config, a: string, b: string)
    requires StatusesUrl(config, a) == StatusesUrl(config, b)
    ensures a == b
  {
    StatusesUrlRoundTrip(config, a);
    StatusesUrlRoundTrip(config, b);
  }

  const CurlPrefix: string := "curl --silent --header \"PRIVATE-TOKEN: "

  /** `curl --silent --header "PRIVATE-TOKEN: <token>" "<url>"`. */
  function CurlCommand(config: Config, u: string): (cmd: string)
    ensures |cmd| == |CurlPrefix| + |config.privateToken| + 3 + |u| + 1
    ensures cmd[..|CurlPrefix|] == CurlPrefix
    ensures cmd[|CurlPrefix|..|CurlPrefix| + |config.privateToken|] == config.privateToken
    ensures cmd[|CurlPrefix| + |config.privateToken|..|CurlPrefix| + |config.privateToken| + 3] == "\" \""
    ensures cmd[|cmd| - |u| - 1..|cmd| - 1] == u
    ensures cmd[|cmd| - 1] == '"'
  {
    var head := CurlPrefix + config.privateToken;
    var cmd := head + "\" \"" + u + "\"";
    assert cmd[..|CurlPrefix|] == head[..|CurlPrefix|];
    assert cmd[|CurlPrefix|..|head|] == config.privateToken;
    assert cmd[|head|..|head| + 3] == "\" \"";
    assert cmd[|cmd| - |u| - 1..|cmd| - 1] == u;
    cmd
  }

  /** Under one config, different commits give different curl commands. */
  lemma CurlCommandNamesCommit(config: Config, a: string, b: string)
    requires CurlCommand(config, StatusesUrl(config, a)) == CurlCommand(config, StatusesUrl(config, b))
    ensures a == b
  {
    var ua, ub := StatusesUrl(config, a), StatusesUrl(config, b);
    var ca := CurlCommand(config, ua);
    assert |ua| == |ub|;
    assert ua == ca[|ca| - |ua| - 1..|ca| - 1] == ub;
    StatusesUrlInjective(config, a, b);
  }
}
