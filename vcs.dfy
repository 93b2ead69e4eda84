/** The two `git rev-parse` queries of index.js and the newline strip applied
    to their output.  Running git is outside the model: a query is a command
    line, and the caller supplies what that command line prints. */
module Vcs {
  import opened Wrappers

  const CurrentBranchCommand: string := "git rev-parse --abbrev-ref HEAD"
  const OriginPrefix: string := "git rev-parse origin/"

  /** The command that prints the commit of `origin/<branch>`; the branch
      name is interpolated as it is, without quoting. */
  function OriginCommitCommand(branch: string): (cmd: string)
    ensures |cmd| == |OriginPrefix| + |branch|
    ensures cmd[..|OriginPrefix|] == OriginPrefix && cmd[|OriginPrefix|..] == branch
  {
    OriginPrefix + branch
  }

  /** Distinct branches give distinct commands. */
  lemma OriginCommitCommandInjective(a: string, b: string)
    requires OriginCommitCommand(a) == OriginCommitCommand(b)
    ensures a == b
  {
  }

  /** Position of the first occurrence of `c` in `s`, the match a
      non-global regular expression of one character finds. */
  function IndexOf(s: string, c: char): (r: Option<nat>)
    ensures r.None? <==> c !in s
    ensures r.Some? ==> r.value < |s| && s[r.value] == c && c !in s[..r.value]
  {
    if s == [] then None
    else if s[0] == c then Some(0)
    else
      match IndexOf(s[1..], c)
      case None => None
      case Some(i) =>
        assert s[..i + 1] == [s[0]] + s[1..][..i];
        Some(i + 1)
  }

  /** `s.replace(/\n/, '')`: removes the first newline only. */
  function StripFirstNewline(s: string): (r: string)
    ensures '\n' !in s ==> r == s
    ensures '\n' in s ==> |r| == |s| - 1
    ensures '\n' in s ==>
      exists i :: 0 <= i < |s| && s[i] == '\n' && '\n' !in s[..i] && r == s[..i] + s[i + 1..]
  {
    match IndexOf(s, '\n')
    case None => s
    case Some(i) => s[..i] + s[i + 1..]
  }

  /** Every newline after the first one survives the strip. */
  lemma StripKeepsLaterNewlines(s: string)
    requires '\n' in s
    ensures multiset(StripFirstNewline(s))['\n'] == multiset(s)['\n'] - 1
  {
    var i := IndexOf(s, '\n').value;
    assert s == s[..i] + [s[i]] + s[i + 1..];
    assert multiset(s) == multiset(s[..i]) + multiset{'\n'} + multiset(s[i + 1..]);
  }

  /** Output that is one line ending in its terminator loses exactly that
      terminator, so what git prints for a branch or a commit resolves to the
      name without a newline. */
  lemma StripOneLine(line: string)
    requires '\n' !in line
    ensures StripFirstNewline(line + "\n") == line
    ensures '\n' !in StripFirstNewline(line + "\n")
  {
  }

  /** Only the first newline goes: a later one is kept even when it trails. */
  lemma StripTwoLines()
    ensures StripFirstNewline("a\nb\n") == "ab\n"
  {
  }

  /** Does `s` end in a newline and hold no other one? */
  predicate IsOneLine(s: string)
  {
    |s| > 0 && s[|s| - 1] == '\n' && '\n' !in s[..|s| - 1]
  }

  /** getCurrentBranch: rejects with git's stderr when the command fails,
      otherwise resolves to its stdout with the first newline removed. */
  function GetCurrentBranch(git: string -> ExecResult): (r: Settled<string>)
    ensures !r.Crashed?
    ensures r.Rejected? <==> git(CurrentBranchCommand).ExecErr?
    ensures r.Rejected? ==> r.reason == git(CurrentBranchCommand).stderr
    ensures r.Resolved? ==> r.value == StripFirstNewline(git(CurrentBranchCommand).stdout)
    // A corollary of the previous clause and StripOneLine: `"main\n"` gives `"main"`.
    ensures r.Resolved? && IsOneLine(git(CurrentBranchCommand).stdout) ==>
      r.value + "\n" == git(CurrentBranchCommand).stdout && '\n' !in r.value
  {
    match git(CurrentBranchCommand)
    case ExecErr(e) => Rejected(e)
    case ExecOk(out) =>
      if IsOneLine(out) then
        assert out == out[..|out| - 1] + "\n";
        StripOneLine(out[..|out| - 1]);
        Resolved(StripFirstNewline(out))
      else
        Resolved(StripFirstNewline(out))
  }

  /** getCommitshForUpstream: the same shape as GetCurrentBranch, for the
      command that names `origin/<branch>`. */
  function GetCommitshForUpstream(git: string -> ExecResult, branch: string): (r: Settled<string>)
    ensures !r.Crashed?
    ensures r.Rejected? <==> git(OriginCommitCommand(branch)).ExecErr?
    ensures r.Rejected? ==> r.reason == git(OriginCommitCommand(branch)).stderr
    ensures r.Resolved? ==> r.value == StripFirstNewline(git(OriginCommitCommand(branch)).stdout)
    // A corollary of the previous clause and StripOneLine: `"abc123\n"` gives `"abc123"`.
    ensures r.Resolved? && IsOneLine(git(OriginCommitCommand(branch)).stdout) ==>
      r.value + "\n" == git(OriginCommitCommand(branch)).stdout && '\n' !in r.value
  {
    match git(OriginCommitCommand(branch))
    case ExecErr(e) => Rejected(e)
    case ExecOk(out) =>
      if IsOneLine(out) then
        assert out == out[..|out| - 1] + "\n";
        StripOneLine(out[..|out| - 1]);
        Resolved(StripFirstNewline(out))
      else
        Resolved(StripFirstNewline(out))
  }
}
