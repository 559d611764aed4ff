/** The repository-URL parser of the GitHub service: the two regular expressions
    `github\.com\/([^/]+)\/([^/]+?)(\.git)?$` (HTTPS) and
    `github\.com:([^/]+)\/(.+?)(\.git)?$` (SSH), tried in that order. */
module GitHub {
  import opened Common

  datatype RepoInfo = RepoInfo(owner: string, repo: string)

  const HttpsMarker: string := "github.com/"
  const SshMarker: string := "github.com:"

  /** The characters a regular expression's `.` does not match. */
  const LineTerminators: set<char> := {'\n', '\r', '\U{2028}', '\U{2029}'}

  predicate NoSlash(s: string) {
    forall i :: 0 <= i < |s| ==> s[i] != '/'
  }

  predicate OnOneLine(s: string) {
    forall i :: 0 <= i < |s| ==> s[i] !in LineTerminators
  }

  /** The first `/` at or after `i`, or `|t|`. */
  function SlashFrom(t: string, i: nat): (r: nat)
    requires i <= |t|
    ensures i <= r <= |t| && (r == |t| || t[r] == '/')
    ensures forall j :: i <= j < r ==> t[j] != '/'
    decreases |t| - i
  {
    if i == |t| || t[i] == '/' then i else SlashFrom(t, i + 1)
  }

  /** The lazy repository group followed by `(\.git)?$`: one trailing ".git" goes,
      unless it is all there is. */
  function StripGit(repo: string): string {
    if |repo| > 4 && EndsWith(repo, ".git") then repo[..|repo| - 4] else repo
  }

  /** What the pattern accepts after its marker: an owner of one or more non-slash
      characters (greedy, so it runs up to the first slash), a slash, then a
      non-empty rest that holds no slash (HTTPS) or no line terminator (SSH). */
  function OwnerRepo(t: string, ssh: bool): (r: Option<RepoInfo>)
    ensures r.Some? ==> r.value.owner != [] && NoSlash(r.value.owner) && r.value.repo != []
    ensures r.Some? && !ssh ==> NoSlash(r.value.repo)
    ensures r.Some? && ssh ==> OnOneLine(r.value.repo)
  {
    var k := SlashFrom(t, 0);
    if k == 0 || k == |t| then None
    else
      var rest := t[k + 1..];
      if rest == [] || (!ssh && !NoSlash(rest)) || (ssh && !OnOneLine(rest)) then None
      else Some(RepoInfo(t[..k], StripGit(rest)))
  }

  predicate MatchesAt(s: string, marker: string, ssh: bool, i: int) {
    OccursAt(s, marker, i) && OwnerRepo(s[i + |marker|..], ssh).Some?
  }

  /** The leftmost position at or after `i` where the pattern matches. */
  function FirstMatch(s: string, marker: string, ssh: bool, i: nat): (r: Option<nat>)
    requires i <= |s|
    ensures r.Some? ==> i <= r.value && MatchesAt(s, marker, ssh, r.value)
    ensures r.Some? ==> forall j :: i <= j < r.value ==> !MatchesAt(s, marker, ssh, j)
    ensures r.None? ==> forall j :: i <= j ==> !MatchesAt(s, marker, ssh, j)
    decreases |s| - i
  {
    if MatchesAt(s, marker, ssh, i) then Some(i)
    else if i == |s| then None
    else FirstMatch(s, marker, ssh, i + 1)
  }

  function MatchedInfo(s: string, marker: string, ssh: bool, i: nat): RepoInfo
    requires MatchesAt(s, marker, ssh, i)
  {
    OwnerRepo(s[i + |marker|..], ssh).value
  }

  /** `parseRepoUrl`: the HTTPS form first, the SSH form only when it fails, else null. */
  function ParseRepoUrl(url: string): (r: Option<RepoInfo>)
    ensures r.Some? ==> r.value.owner != [] && NoSlash(r.value.owner) && r.value.repo != []
  {
    var https := FirstMatch(url, HttpsMarker, false, 0);
    if https.Some? then Some(MatchedInfo(url, HttpsMarker, false, https.value))
    else
      var ssh := FirstMatch(url, SshMarker, true, 0);
      if ssh.Some? then Some(MatchedInfo(url, SshMarker, true, ssh.value)) else None
  }

  /** A URL parses exactly when one of the two patterns matches somewhere in it, and
      when the HTTPS pattern matches, its slash-free repository is the one taken. */
  lemma ParseRepoUrlAccepts(url: string)
    ensures ParseRepoUrl(url).Some? <==>
      (exists i :: MatchesAt(url, HttpsMarker, false, i)) || (exists i :: MatchesAt(url, SshMarker, true, i))
    ensures (exists i :: MatchesAt(url, HttpsMarker, false, i)) ==>
      ParseRepoUrl(url).Some? && NoSlash(ParseRepoUrl(url).value.repo)
  {
    var https := FirstMatch(url, HttpsMarker, false, 0);
    var ssh := FirstMatch(url, SshMarker, true, 0);
    if https.Some? {
      assert MatchesAt(url, HttpsMarker, false, https.value);
    } else if ssh.Some? {
      assert MatchesAt(url, SshMarker, true, ssh.value);
    }
  }

  /** Exactly one ".git" is taken off. */
  lemma StripGitOnce(repo: string)
    requires repo != []
    ensures StripGit(repo + ".git") == repo
    ensures !EndsWith(repo, ".git") ==> StripGit(repo) == repo
  {
    assert (repo + ".git")[|repo| + 4 - 4..] == ".git";
  }

  /** The leftmost match is the one at `k` when no earlier position holds the marker. */
  lemma FirstMatchIs(s: string, marker: string, ssh: bool, k: nat)
    requires k <= |s| && MatchesAt(s, marker, ssh, k)
    requires forall j :: 0 <= j < k ==> !OccursAt(s, marker, j)
    ensures FirstMatch(s, marker, ssh, 0) == Some(k)
  {
  }

  /** A marker occurrence cannot start where the text differs from its first character. */
  lemma NotBefore(s: string, prefix: string, marker: string, j: nat)
    requires StartsWith(s, prefix) && j < |prefix| && marker != [] && prefix[j] != marker[0]
    ensures !OccursAt(s, marker, j)
  {
  }

  /** A pattern that matches right after a prefix holding no earlier marker is the one found. */
  lemma FirstMatchAfter(p: string, marker: string, ssh: bool, t: string)
    requires forall j :: 0 <= j < |p| ==> !OccursAt(p + marker + t, marker, j)
    requires OwnerRepo(t, ssh).Some?
    ensures FirstMatch(p + marker + t, marker, ssh, 0) == Some(|p|)
    ensures MatchedInfo(p + marker + t, marker, ssh, |p|) == OwnerRepo(t, ssh).value
  {
    var s := p + marker + t;
    assert s[|p|..|p| + |marker|] == marker;
    assert s[|p| + |marker|..] == t;
    FirstMatchIs(s, marker, ssh, |p|);
  }

  /** `https://github.com/owner/repo.git` parses back to its owner and repository. */
  lemma HttpsRoundTrip(owner: string, repo: string)
    requires owner != [] && NoSlash(owner)
    requires repo != [] && NoSlash(repo)
    ensures ParseRepoUrl("https://github.com/" + owner + "/" + repo + ".git") == Some(RepoInfo(owner, repo))
  {
    var tail := repo + ".git";
    var t := owner + "/" + tail;
    var url := "https://" + HttpsMarker + t;
    assert url == "https://github.com/" + owner + "/" + repo + ".git";
    NoSlashGit(repo);
    OwnerRepoOnSlashFree(owner, tail);
    StripGitOnce(repo);
    NoEarlyMarker("https://", HttpsMarker, t);
    FirstMatchAfter("https://", HttpsMarker, false, t);
  }

  lemma NoSlashGit(repo: string)
    requires NoSlash(repo)
    ensures NoSlash(repo + ".git")
  {
    var tail := repo + ".git";
    forall i | 0 <= i < |tail| ensures tail[i] != '/' {
      if i >= |repo| {
        assert tail[i] == ".git"[i - |repo|];
      }
    }
  }

  /** Neither marker can start inside `https://`, nor at positions 1 to 3 of `git@`. */
  lemma NoEarlyMarker(p: string, marker: string, t: string)
    requires p == "https://" || p == "git@"
    requires marker == HttpsMarker || marker == SshMarker
    ensures forall j :: 0 < j < |p| || (0 <= j < |p| && p == "https://") ==> !OccursAt(p + marker + t, marker, j)
  {
    var s := p + marker + t;
    assert StartsWith(s, p);
    forall j | 0 < j < |p| || (0 <= j < |p| && p == "https://") ensures !OccursAt(s, marker, j) {
      NotBefore(s, p, marker, j);
    }
  }

  /** The slash-free `owner/tail` after the HTTPS marker. */
  lemma OwnerRepoOnSlashFree(owner: string, tail: string)
    requires owner != [] && NoSlash(owner)
    requires tail != [] && NoSlash(tail)
    ensures OwnerRepo(owner + "/" + tail, false) == Some(RepoInfo(owner, StripGit(tail)))
  {
    var t := owner + "/" + tail;
    assert t[|owner|] == '/';
    assert SlashFrom(t, 0) == |owner|;
    assert t[..|owner|] == owner;
    assert t[|owner| + 1..] == tail;
  }

  /** `git@github.com:owner/repo.git` parses back to its owner and repository, which
      may itself contain slashes, as long as the HTTPS marker does not occur in it. */
  lemma SshRoundTrip(owner: string, repo: string)
    requires owner != [] && NoSlash(owner)
    requires repo != [] && OnOneLine(repo)
    requires !Contains(owner + "/" + repo, HttpsMarker)
    ensures ParseRepoUrl("git@github.com:" + owner + "/" + repo + ".git") == Some(RepoInfo(owner, repo))
  {
    var mid := owner + "/" + repo;
    var url := "git@github.com:" + mid + ".git";
    assert url == "git@github.com:" + owner + "/" + repo + ".git";
    NoHttpsMatch(mid);
    SshMatchAtFour(owner, repo);
  }

  /** The HTTPS marker cannot occur in `git@github.com:mid.git` unless it occurs in `mid`. */
  lemma NoHttpsMatch(mid: string)
    requires !Contains(mid, HttpsMarker)
    ensures forall j :: !MatchesAt("git@github.com:" + mid + ".git", HttpsMarker, false, j)
  {
    var url := "git@github.com:" + mid + ".git";
    forall j | OccursAt(url, HttpsMarker, j) ensures false {
      HttpsInside(mid, j);
      assert url[j..j + 11] == mid[j - 15..j - 15 + 11];
      assert OccursAt(mid, HttpsMarker, j - 15);
      ContainsIff(mid, HttpsMarker);
    }
  }

  /** Where the HTTPS marker can sit in `git@github.com:mid.git`: its slash must be in `mid`,
      and its first character cannot be in the prefix. */
  lemma HttpsInside(mid: string, j: nat)
    requires OccursAt("git@github.com:" + mid + ".git", HttpsMarker, j)
    ensures 15 <= j && j + 11 <= 15 + |mid|
  {
    var url := "git@github.com:" + mid + ".git";
    assert url[j + 10] == url[j..j + 11][10] == '/';
    assert url[j] == url[j..j + 11][0] == 'g';
  }

  lemma SshMatchAtFour(owner: string, repo: string)
    requires owner != [] && NoSlash(owner)
    requires repo != [] && OnOneLine(repo)
    ensures var url := "git@github.com:" + (owner + "/" + repo) + ".git";
      FirstMatch(url, SshMarker, true, 0) == Some(4) &&
      MatchedInfo(url, SshMarker, true, 4) == RepoInfo(owner, repo)
  {
    var tail := repo + ".git";
    var t := owner + "/" + tail;
    var url := "git@" + SshMarker + t;
    assert url == "git@github.com:" + (owner + "/" + repo) + ".git";
    SshOwnerRepo(owner, repo);
    NoEarlyMarker("git@", SshMarker, t);
    assert !OccursAt(url, SshMarker, 0) by {
      assert url[3] == '@';
    }
    FirstMatchAfter("git@", SshMarker, true, t);
  }

  lemma SshOwnerRepo(owner: string, repo: string)
    requires owner != [] && NoSlash(owner)
    requires repo != [] && OnOneLine(repo)
    ensures OwnerRepo(owner + "/" + (repo + ".git"), true) == Some(RepoInfo(owner, repo))
  {
    var tail := repo + ".git";
    var t := owner + "/" + tail;
    assert OnOneLine(tail) by {
      forall i | 0 <= i < |tail| ensures tail[i] !in LineTerminators {
        if i >= |repo| {
          assert tail[i] == ".git"[i - |repo|];
        }
      }
    }
    assert t[|owner|] == '/';
    assert SlashFrom(t, 0) == |owner|;
    assert t[..|owner|] == owner;
    assert t[|owner| + 1..] == tail;
    StripGitOnce(repo);
  }

  /** A URL without either marker is rejected. */
  lemma ForeignUrlRejected(url: string)
    requires !Contains(url, "github.com")
    ensures ParseRepoUrl(url) == None
  {
    forall i | OccursAt(url, HttpsMarker, i) || OccursAt(url, SshMarker, i) ensures false {
      assert url[i..i + 10] == url[i..i + 11][..10];
      assert OccursAt(url, "github.com", i);
      ContainsIff(url, "github.com");
    }
  }
}
