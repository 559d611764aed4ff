/** The delivery service: branch naming, the delivery record a pull request is
    built through, and the replies posted to a code review. Git and GitHub calls
    are collaborators whose results (or failure) are given as inputs. */
module Delivery {
  import opened Common
  import Paths
  import GitHub

  // ---------------------------------------------------------------------------
  // Branch type

  datatype BranchType = Fix | Test | Refactor | Docs | Feat | Chore

  function Label(t: BranchType): string {
    match t
    case Fix => "fix"
    case Test => "test"
    case Refactor => "refactor"
    case Docs => "docs"
    case Feat => "feat"
    case Chore => "chore"
  }

  function LabelType(word: string): (r: Option<BranchType>)
    ensures r.Some? ==> Label(r.value) == word
  {
    if word == "fix" then Some(Fix)
    else if word == "test" then Some(Test)
    else if word == "refactor" then Some(Refactor)
    else if word == "docs" then Some(Docs)
    else if word == "feat" then Some(Feat)
    else if word == "chore" then Some(Chore)
    else None
  }

  /** `detectBranchType`: keyword tests on the lower-cased description, in priority order. */
  function DetectBranchType(description: string): BranchType {
    var lower := ToLower(description);
    if Contains(lower, "fix") || Contains(lower, "bug") then Fix
    else if Contains(lower, "test") || Contains(lower, "spec") || Contains(lower, "coverage") then Test
    else if Contains(lower, "refactor") || Contains(lower, "cleanup") || Contains(lower, "improve") then Refactor
    else if Contains(lower, "doc") then Docs
    else if Contains(lower, "add") || Contains(lower, "implement") || Contains(lower, "create") then Feat
    else Chore
  }

  /** The keyword groups as a table, highest priority first. */
  const KeywordTable: seq<(BranchType, seq<string>)> := [
    (Fix, ["fix", "bug"]),
    (Test, ["test", "spec", "coverage"]),
    (Refactor, ["refactor", "cleanup", "improve"]),
    (Docs, ["doc"]),
    (Feat, ["add", "implement", "create"])
  ]

  predicate Mentions(lower: string, words: seq<string>) {
    exists w :: w in words && Contains(lower, w)
  }

  /** The type of the first group with a keyword in the text, or `Chore`. */
  function FirstMentioned(lower: string, groups: seq<(BranchType, seq<string>)>): BranchType {
    if groups == [] then Chore
    else if Mentions(lower, groups[0].1) then groups[0].0
    else FirstMentioned(lower, groups[1..])
  }

  /** No type appears twice in the table and `Chore` is not in it. */
  predicate TableTypesDistinct(groups: seq<(BranchType, seq<string>)>) {
    (forall i :: 0 <= i < |groups| ==> groups[i].0 != Chore) &&
    (forall i, j :: 0 <= i < j < |groups| ==> groups[i].0 != groups[j].0)
  }

  lemma {:induction false} FirstMentionedAt(lower: string, groups: seq<(BranchType, seq<string>)>, i: nat)
    requires TableTypesDistinct(groups) && i < |groups|
    ensures FirstMentioned(lower, groups) == groups[i].0 <==>
      Mentions(lower, groups[i].1) && forall j :: 0 <= j < i ==> !Mentions(lower, groups[j].1)
  {
    if i > 0 && !Mentions(lower, groups[0].1) {
      var tail := groups[1..];
      assert TableTypesDistinct(tail);
      FirstMentionedAt(lower, tail, i - 1);
      assert tail[i - 1] == groups[i];
      if forall j :: 0 <= j < i - 1 ==> !Mentions(lower, tail[j].1) {
        forall j | 0 <= j < i ensures !Mentions(lower, groups[j].1) {
          if j > 0 {
            assert groups[j] == tail[j - 1];
          }
        }
      } else {
        var j :| 0 <= j < i - 1 && Mentions(lower, tail[j].1);
        assert groups[j + 1] == tail[j];
      }
    } else if i > 0 {
      assert groups[0].0 != groups[i].0;
    } else if !Mentions(lower, groups[0].1) {
      FirstMentionedOf(lower, groups[1..]);
      if FirstMentioned(lower, groups[1..]) != Chore {
        var j :| 0 <= j < |groups[1..]| && FirstMentioned(lower, groups[1..]) == groups[1..][j].0;
        assert groups[1..][j] == groups[j + 1];
      }
    }
  }

  /** The type found is `Chore` or one of the table's. */
  lemma {:induction false} FirstMentionedOf(lower: string, groups: seq<(BranchType, seq<string>)>)
    ensures FirstMentioned(lower, groups) == Chore ||
      exists j :: 0 <= j < |groups| && FirstMentioned(lower, groups) == groups[j].0
  {
    if groups != [] && !Mentions(lower, groups[0].1) {
      FirstMentionedOf(lower, groups[1..]);
      if FirstMentioned(lower, groups[1..]) != Chore {
        var j :| 0 <= j < |groups[1..]| && FirstMentioned(lower, groups[1..]) == groups[1..][j].0;
        assert groups[1..][j] == groups[j + 1];
      }
    }
  }

  lemma {:induction false} FirstMentionedChore(lower: string, groups: seq<(BranchType, seq<string>)>)
    requires TableTypesDistinct(groups)
    ensures FirstMentioned(lower, groups) == Chore <==> forall j :: 0 <= j < |groups| ==> !Mentions(lower, groups[j].1)
  {
    if groups != [] {
      assert TableTypesDistinct(groups[1..]);
      FirstMentionedChore(lower, groups[1..]);
      forall j | 0 < j < |groups| ensures groups[1..][j - 1] == groups[j] {
      }
    }
  }

  lemma MentionsPair(lower: string, a: string, b: string)
    ensures Mentions(lower, [a, b]) <==> Contains(lower, a) || Contains(lower, b)
  {
    if Contains(lower, a) {
      assert a in [a, b];
    } else if Contains(lower, b) {
      assert b in [a, b];
    }
  }

  lemma MentionsTriple(lower: string, a: string, b: string, c: string)
    ensures Mentions(lower, [a, b, c]) <==> Contains(lower, a) || Contains(lower, b) || Contains(lower, c)
  {
    if Contains(lower, a) {
      assert a in [a, b, c];
    } else if Contains(lower, b) {
      assert b in [a, b, c];
    } else if Contains(lower, c) {
      assert c in [a, b, c];
    }
  }

  /** One step of the search: the head group, or the search in the rest. */
  lemma FirstMentionedStep(lower: string, groups: seq<(BranchType, seq<string>)>)
    requires groups != []
    ensures FirstMentioned(lower, groups) ==
      if Mentions(lower, groups[0].1) then groups[0].0 else FirstMentioned(lower, groups[1..])
  {
  }

  /** The search through a table of five groups, written out. */
  lemma FirstMentionedFive(lower: string, groups: seq<(BranchType, seq<string>)>)
    requires |groups| == 5
    ensures FirstMentioned(lower, groups) ==
      if Mentions(lower, groups[0].1) then groups[0].0
      else if Mentions(lower, groups[1].1) then groups[1].0
      else if Mentions(lower, groups[2].1) then groups[2].0
      else if Mentions(lower, groups[3].1) then groups[3].0
      else if Mentions(lower, groups[4].1) then groups[4].0
      else Chore
  {
    var g1 := groups[1..];
    var g2 := g1[1..];
    var g3 := g2[1..];
    var g4 := g3[1..];
    assert g1[0] == groups[1] && g2[0] == groups[2] && g3[0] == groups[3] && g4[0] == groups[4];
    FirstMentionedStep(lower, groups);
    FirstMentionedStep(lower, g1);
    FirstMentionedStep(lower, g2);
    FirstMentionedStep(lower, g3);
    FirstMentionedStep(lower, g4);
    assert g4[1..] == [];
  }

  lemma DetectedByTable(description: string)
    ensures DetectBranchType(description) == FirstMentioned(ToLower(description), KeywordTable)
  {
    var lower := ToLower(description);
    MentionsPair(lower, "fix", "bug");
    MentionsTriple(lower, "test", "spec", "coverage");
    MentionsTriple(lower, "refactor", "cleanup", "improve");
    assert Mentions(lower, ["doc"]) <==> Contains(lower, "doc") by {
      if Contains(lower, "doc") {
        assert "doc" in ["doc"];
      }
    }
    MentionsTriple(lower, "add", "implement", "create");
    FirstMentionedFive(lower, KeywordTable);
  }

  /** A description gets the type of a keyword group exactly when it mentions that
      group and no group of higher priority. */
  lemma BranchTypePriority(description: string, i: nat)
    requires i < |KeywordTable|
    ensures DetectBranchType(description) == KeywordTable[i].0 <==>
      Mentions(ToLower(description), KeywordTable[i].1) &&
      forall j :: 0 <= j < i ==> !Mentions(ToLower(description), KeywordTable[j].1)
  {
    DetectedByTable(description);
    FirstMentionedAt(ToLower(description), KeywordTable, i);
  }

  /** `chore` is the type of a description that mentions no keyword at all. */
  lemma ChoreWhenNoKeyword(description: string)
    ensures DetectBranchType(description) == Chore <==>
      forall j :: 0 <= j < |KeywordTable| ==> !Mentions(ToLower(description), KeywordTable[j].1)
  {
    DetectedByTable(description);
    FirstMentionedChore(ToLower(description), KeywordTable);
  }

  // ---------------------------------------------------------------------------
  // Branch name

  /** The characters `[^a-z0-9\s-]` does not remove. */
  predicate Kept(c: char) {
    IsLowerAlnum(c) || IsWhite(c) || c == '-'
  }

  /** `.replace(/[^a-z0-9\s-]/g, '')` */
  function KeepAllowed(s: string): (r: string)
    ensures |r| <= |s|
    ensures forall c :: c in r ==> Kept(c)
  {
    if s == [] then []
    else (if Kept(s[0]) then [s[0]] else []) + KeepAllowed(s[1..])
  }

  /** `.replace(/\s+/g, '-')`: every run of white space becomes one dash. */
  function DashWhite(s: string): (r: string)
    ensures |r| <= |s|
    ensures forall c :: c in r ==> c == '-' || (c in s && !IsWhite(c))
    decreases |s|
  {
    if s == [] then []
    else if IsWhite(s[0]) then
      var k := SkipWhite(s, 0);
      assert forall c :: c in s[k..] ==> c in s;
      "-" + DashWhite(s[k..])
    else
      assert forall c :: c in s[1..] ==> c in s;
      [s[0]] + DashWhite(s[1..])
  }

  /** `.slice(0, n)` */
  function Take(s: string, n: nat): (r: string)
    ensures |r| <= n && |r| <= |s| && r == s[..|r|]
    ensures |s| <= n ==> r == s
  {
    if |s| <= n then s else s[..n]
  }

  predicate IsSlug(s: string) {
    forall c :: c in s ==> IsLowerAlnum(c) || c == '-'
  }

  /** The description part of a branch name: lower-cased, stripped to letters, digits,
      white space and dashes, white space runs turned into dashes, at most 50 long. */
  function Sanitize(description: string): (r: string)
    ensures |r| <= 50 && IsSlug(r)
  {
    var kept := KeepAllowed(ToLower(description));
    var dashed := DashWhite(kept);
    assert IsSlug(dashed) by {
      forall c | c in dashed ensures IsLowerAlnum(c) || c == '-' {
        if c != '-' {
          assert c in kept && Kept(c);
        }
      }
    }
    Take(dashed, 50)
  }

  lemma LowerOfSlug(s: string)
    requires IsSlug(s)
    ensures ToLower(s) == s
  {
    forall i | 0 <= i < |s| ensures ToLower(s)[i] == s[i] {
      assert s[i] in s;
    }
  }

  lemma {:induction false} KeepSlug(s: string)
    requires IsSlug(s)
    ensures KeepAllowed(s) == s
  {
    if s != [] {
      assert s[0] in s;
      assert IsSlug(s[1..]) by {
        forall c | c in s[1..] ensures c in s {
        }
      }
      KeepSlug(s[1..]);
      assert [s[0]] + s[1..] == s;
    }
  }

  lemma {:induction false} DashSlug(s: string)
    requires IsSlug(s)
    ensures DashWhite(s) == s
  {
    if s != [] {
      assert s[0] in s;
      assert !IsWhite(s[0]);
      assert IsSlug(s[1..]) by {
        forall c | c in s[1..] ensures c in s {
        }
      }
      DashSlug(s[1..]);
      assert [s[0]] + s[1..] == s;
    }
  }

  /** A sanitized description sanitizes to itself. */
  lemma SanitizeIdempotent(description: string)
    ensures Sanitize(Sanitize(description)) == Sanitize(description)
  {
    var s := Sanitize(description);
    LowerOfSlug(s);
    KeepSlug(s);
    DashSlug(s);
  }

  /** `Date.now().toString().slice(-6)`: the last six digits of the clock. */
  function Stamp(now: nat): (r: string)
    ensures 1 <= |r| <= 6 && AllDigits(r)
  {
    var digits := NatToString(now);
    if |digits| <= 6 then digits else digits[|digits| - 6..]
  }

  function Pow10(k: nat): (r: nat)
    ensures r >= 1
  {
    if k == 0 then 1 else 10 * Pow10(k - 1)
  }

  function LastDigits(s: string, k: nat): string {
    if |s| <= k then s else s[|s| - k..]
  }

  lemma MulAtLeast(d: nat, k: nat)
    requires k >= 1
    ensures d * k >= d
  {
    assert d * k == d * (k - 1) + d;
  }

  /** The remainder is determined by any quotient-remainder decomposition. */
  lemma ModUnique(n: nat, d: nat, q: nat, x: nat)
    requires d > 0 && x < d && n == d * q + x
    ensures n % d == x
  {
    var q' := n / d;
    var x' := n % d;
    assert n == d * q' + x';
    if q > q' {
      assert d * q == d * q' + d * (q - q');
      MulAtLeast(d, q - q');
    } else if q < q' {
      assert d * q' == d * q + d * (q' - q);
      MulAtLeast(d, q' - q);
    }
  }

  lemma DivModStep(n: nat, m: nat)
    requires m >= 1
    ensures (n / 10) % m * 10 + n % 10 == n % (10 * m)
  {
    var q := n / 10;
    var d := n % 10;
    var a := q / m;
    var b := q % m;
    assert q == m * a + b;
    assert n == 10 * q + d;
    assert n == (10 * m) * a + (10 * b + d) by {
      assert 10 * q == 10 * (m * a) + 10 * b;
      assert 10 * (m * a) == (10 * m) * a;
    }
    ModUnique(n, 10 * m, a, 10 * b + d);
  }

  lemma DigitsSnoc(t: string, c: char)
    requires AllDigits(t) && IsDigit(c)
    ensures AllDigits(t + [c])
    ensures DigitsValue(t + [c]) == DigitsValue(t) * 10 + DigitValue(c)
  {
    assert (t + [c])[..|t|] == t;
  }

  lemma LastDigitsSnoc(front: string, c: char, k: nat)
    requires k >= 1
    ensures LastDigits(front + [c], k) == LastDigits(front, k - 1) + [c]
  {
    if |front| + 1 > k {
      assert (front + [c])[|front| + 1 - k..] == front[|front| - (k - 1)..] + [c];
    }
  }

  /** The last `k` digits of `n` read back as `n` modulo 10^k. */
  predicate LastDigitsRead(n: nat, k: nat) {
    AllDigits(LastDigits(NatToString(n), k)) &&
    DigitsValue(LastDigits(NatToString(n), k)) == n % Pow10(k)
  }

  lemma {:induction false} LastDigitsValue(n: nat, k: nat)
    ensures LastDigitsRead(n, k)
  {
    if k == 0 {
      NoLastDigits(n);
    } else if n < 10 {
      LastDigitOfSmall(n, k);
    } else {
      LastDigitsValue(n / 10, k - 1);
      LastDigitsStep(n, k);
    }
  }

  lemma NoLastDigits(n: nat)
    ensures LastDigitsRead(n, 0)
  {
    assert LastDigits(NatToString(n), 0) == [];
  }

  lemma LastDigitOfSmall(n: nat, k: nat)
    requires n < 10 && k >= 1
    ensures LastDigitsRead(n, k)
  {
    var s := NatToString(n);
    assert Pow10(k) == 10 * Pow10(k - 1);
    ModUnique(n, Pow10(k), 0, n);
    assert s == [] + [DigitChar(n)];
    assert LastDigits(s, k) == s;
    DigitsSnoc([], DigitChar(n));
    assert DigitValue(DigitChar(n)) == n;
  }

  lemma LastDigitsStep(n: nat, k: nat)
    requires n >= 10 && k >= 1
    requires LastDigitsRead(n / 10, k - 1)
    ensures LastDigitsRead(n, k)
  {
    var s := NatToString(n);
    var front := NatToString(n / 10);
    var c := DigitChar(n % 10);
    assert s == front + [c];
    var m := Pow10(k - 1);
    assert Pow10(k) == 10 * m;
    var t := LastDigits(front, k - 1);
    var v := DigitsValue(t);
    LastDigitsSnoc(front, c, k);
    DigitsSnoc(t, c);
    assert DigitValue(c) == n % 10;
    assert DigitsValue(LastDigits(s, k)) == v * 10 + n % 10;
    DivModStep(n, m);
  }

  /** The stamp reads back as the clock modulo 10^6. */
  lemma StampValue(now: nat)
    ensures DigitsValue(Stamp(now)) == now % 1000000
  {
    LastDigitsValue(now, 6);
    assert Pow10(6) == 1000000;
    assert Stamp(now) == LastDigits(NatToString(now), 6);
  }

  /** `generateBranchName`: `type/sanitized-stamp`, with the clock given as `now`. */
  function BranchName(description: string, now: nat): string {
    Label(DetectBranchType(description)) + "/" + Sanitize(description) + "-" + Stamp(now)
  }

  /** Proof helper, not an operation of the service: splits a branch name at its first
      slash and its last dash, so that the lemmas below can state that a generated name
      gives back its type, slug and stamp. */
  function ParseBranchName(name: string): Option<(BranchType, string, string)> {
    var slash := IndexOfFrom(name, "/", 0);
    if slash.None? then None
    else
      var t := LabelType(name[..slash.value]);
      var rest := name[slash.value + 1..];
      var dash := Paths.LastIndexOf(rest, '-');
      if t.None? || dash.None? then None
      else Some((t.value, rest[..dash.value], rest[dash.value + 1..]))
  }

  lemma LabelHasNoSlash(t: BranchType)
    ensures forall i :: 0 <= i < |Label(t)| ==> Label(t)[i] != '/'
    ensures LabelType(Label(t)) == Some(t)
  {
  }

  lemma FirstSlashAt(head: string, rest: string)
    requires forall i :: 0 <= i < |head| ==> head[i] != '/'
    ensures var name := head + "/" + rest;
      IndexOfFrom(name, "/", 0) == Some(|head|) && name[..|head|] == head && name[|head| + 1..] == rest
  {
    var name := head + "/" + rest;
    assert OccursAt(name, "/", |head|);
    forall j | 0 <= j < |head| ensures !OccursAt(name, "/", j) {
      assert name[j] == head[j];
    }
    IndexOfFromAt(name, "/", 0, |head|);
    assert name[..|head|] == head;
  }

  lemma LastDashAt(slug: string, stamp: string)
    requires AllDigits(stamp)
    ensures var rest := slug + "-" + stamp;
      Paths.LastIndexOf(rest, '-') == Some(|slug|) && rest[..|slug|] == slug && rest[|slug| + 1..] == stamp
  {
    var rest := slug + "-" + stamp;
    assert rest[|slug|] == '-';
    forall j | |slug| < j < |rest| ensures rest[j] != '-' {
      assert rest[j] == stamp[j - |slug| - 1];
    }
    var r := Paths.LastIndexOf(rest, '-');
    assert r.Some? by {
      assert rest[|slug|] in rest;
    }
    assert rest[..|slug|] == slug;
  }

  /** Any name of the form `type/slug-digits` splits back into its three parts. */
  lemma ParseComposed(t: BranchType, slug: string, stamp: string)
    requires AllDigits(stamp)
    ensures ParseBranchName(Label(t) + "/" + slug + "-" + stamp) == Some((t, slug, stamp))
  {
    var rest := slug + "-" + stamp;
    assert Label(t) + "/" + slug + "-" + stamp == Label(t) + "/" + rest;
    LabelHasNoSlash(t);
    FirstSlashAt(Label(t), rest);
    LastDashAt(slug, stamp);
  }

  /** The type, the sanitized description and the stamp can be read back from a
      branch name. */
  lemma BranchNameRoundTrip(description: string, now: nat)
    ensures ParseBranchName(BranchName(description, now)) ==
      Some((DetectBranchType(description), Sanitize(description), Stamp(now)))
  {
    ParseComposed(DetectBranchType(description), Sanitize(description), Stamp(now));
  }

  // ---------------------------------------------------------------------------
  // Delivery records

  datatype DeliveryStatus = Pending | BranchCreated | Committed | Pushed | PrCreated | Failed

  function Rank(s: DeliveryStatus): nat {
    match s
    case Pending => 0
    case BranchCreated => 1
    case Committed => 2
    case Pushed => 3
    case PrCreated => 4
    case Failed => 5
  }

  datatype Commit = Commit(hash: string, message: string)

  datatype DeliveryRecord = DeliveryRecord(
    taskId: string, repoOwner: string, repoName: string, baseBranch: string,
    branchName: string, status: DeliveryStatus, commits: seq<Commit>,
    prNumber: Option<nat>, prUrl: Option<string>, prTitle: Option<string>, prBody: Option<string>)

  datatype DeliveryConfig = DeliveryConfig(
    taskId: string, repoPath: string, repoUrl: string, baseBranch: string, taskDescription: string)

  /** The collaborator calls of a delivery, in the order they are made. */
  datatype Step =
    | CreateBranch | GetChangedFiles | GetDiff | GenerateCommitMessage
    | CommitChanges | PushBranch | GeneratePrDescription | CreatePullRequest

  datatype Failure = Failure(step: Step, error: string)

  /** What the git and GitHub collaborators return, and the first call that throws, if any. */
  datatype Collaborators = Collaborators(
    commitMessage: string, commitHash: string, prTitle: string, prBody: string,
    prNumber: nat, prUrl: string, failure: Option<Failure>)

  datatype Delivered = Delivered(branchName: string, prNumber: nat, prUrl: string, commits: seq<string>)

  const InvalidUrl: string := "Invalid GitHub repository URL"

  /** The status updates that happen before the failing call: creation writes
      PENDING, then one update after the branch, the commit, the push and the PR. */
  function StatusesReached(failure: Option<Failure>): (r: nat)
    ensures 1 <= r <= 5
    ensures r == 5 <==> failure.None?
  {
    if failure.None? then 5
    else match failure.value.step
      case CreateBranch => 1
      case GetChangedFiles => 2
      case GetDiff => 2
      case GenerateCommitMessage => 2
      case CommitChanges => 2
      case PushBranch => 3
      case GeneratePrDescription => 4
      case CreatePullRequest => 4
  }

  const Forward: seq<DeliveryStatus> := [Pending, BranchCreated, Committed, Pushed, PrCreated]

  /** Every status a delivery record holds, in order. */
  function StatusTrail(failure: Option<Failure>): seq<DeliveryStatus> {
    Forward[..StatusesReached(failure)] + if failure.Some? then [Failed] else []
  }

  /** The record after `j` status writes: created PENDING with an empty branch name,
      then the branch name, the commit, the push and the PR. */
  function Stage(config: DeliveryConfig, info: GitHub.RepoInfo, now: nat, c: Collaborators, j: nat): DeliveryRecord
    requires 1 <= j <= 5
  {
    if j == 1 then
      DeliveryRecord(config.taskId, info.owner, info.repo, config.baseBranch, "", Pending, [], None, None, None, None)
    else
      var prev := Stage(config, info, now, c, j - 1);
      if j == 2 then prev.(branchName := BranchName(config.taskDescription, now), status := BranchCreated)
      else if j == 3 then prev.(commits := [Commit(c.commitHash, c.commitMessage)], status := Committed)
      else if j == 4 then prev.(status := Pushed)
      else prev.(prNumber := Some(c.prNumber), prUrl := Some(c.prUrl),
                 prTitle := Some(c.prTitle), prBody := Some(c.prBody), status := PrCreated)
  }

  /** The record as it stands when `deliverChanges` returns or rethrows. */
  function FinalRecord(config: DeliveryConfig, info: GitHub.RepoInfo, now: nat, c: Collaborators): DeliveryRecord {
    var reached := Stage(config, info, now, c, StatusesReached(c.failure));
    if c.failure.Some? then reached.(status := Failed) else reached
  }

  /** What each stage has recorded: the branch name from stage 2, the commit from
      stage 3, the pull request from stage 5, and the stage's own status. */
  lemma {:induction false} StageFields(config: DeliveryConfig, info: GitHub.RepoInfo, now: nat, c: Collaborators, j: nat)
    requires 1 <= j <= 5
    ensures var d := Stage(config, info, now, c, j);
      d.taskId == config.taskId && d.repoOwner == info.owner && d.repoName == info.repo &&
      d.baseBranch == config.baseBranch &&
      d.status == Forward[j - 1] &&
      d.branchName == (if j >= 2 then BranchName(config.taskDescription, now) else "") &&
      d.commits == (if j >= 3 then [Commit(c.commitHash, c.commitMessage)] else []) &&
      d.prNumber == (if j == 5 then Some(c.prNumber) else None) &&
      d.prUrl == (if j == 5 then Some(c.prUrl) else None)
  {
    if j > 1 {
      StageFields(config, info, now, c, j - 1);
    }
  }

  lemma ForwardStep(j: nat)
    requires j < |Forward|
    ensures Forward[..j] + [Forward[j]] == Forward[..j + 1]
  {
  }

  /** One lemma per update of `deliverChanges`, each from the stage before. */
  lemma BranchStage(config: DeliveryConfig, info: GitHub.RepoInfo, now: nat, c: Collaborators, d: DeliveryRecord)
    requires d == Stage(config, info, now, c, 1)
    ensures d.(branchName := BranchName(config.taskDescription, now), status := BranchCreated) == Stage(config, info, now, c, 2)
  {
  }

  lemma CommitStage(config: DeliveryConfig, info: GitHub.RepoInfo, now: nat, c: Collaborators, d: DeliveryRecord)
    requires d == Stage(config, info, now, c, 2)
    ensures d.(commits := [Commit(c.commitHash, c.commitMessage)], status := Committed) == Stage(config, info, now, c, 3)
  {
  }

  lemma PushStage(config: DeliveryConfig, info: GitHub.RepoInfo, now: nat, c: Collaborators, d: DeliveryRecord)
    requires d == Stage(config, info, now, c, 3)
    ensures d.(status := Pushed) == Stage(config, info, now, c, 4)
  {
  }

  lemma PrStage(config: DeliveryConfig, info: GitHub.RepoInfo, now: nat, c: Collaborators, d: DeliveryRecord)
    requires d == Stage(config, info, now, c, 4)
    ensures d.(prNumber := Some(c.prNumber), prUrl := Some(c.prUrl), prTitle := Some(c.prTitle),
               prBody := Some(c.prBody), status := PrCreated) == Stage(config, info, now, c, 5)
  {
  }

  lemma SuccessTrail(c: Collaborators)
    requires c.failure.None?
    ensures StatusTrail(c.failure) == Forward[..4] + [PrCreated]
  {
    ForwardStep(4);
    assert Forward[..5] == Forward;
  }

  /** What `deliverChanges` returns or throws once the URL has parsed. */
  function Outcome(config: DeliveryConfig, now: nat, c: Collaborators): Result<Delivered> {
    if c.failure.Some? then Err(c.failure.value.error)
    else Ok(Delivered(BranchName(config.taskDescription, now), c.prNumber, c.prUrl, [c.commitHash]))
  }

  /** The status only moves forward, starting at PENDING; FAILED comes last and only
      after a failure, PR_CREATED only when nothing failed; the record ends in the
      trail's last status. */
  lemma StatusTrailForward(config: DeliveryConfig, info: GitHub.RepoInfo, now: nat, c: Collaborators)
    ensures var trail := StatusTrail(c.failure);
      trail != [] && trail[0] == Pending &&
      (forall i, j :: 0 <= i < j < |trail| ==> Rank(trail[i]) < Rank(trail[j])) &&
      (Failed in trail <==> c.failure.Some?) &&
      (PrCreated in trail <==> c.failure.None?) &&
      trail[|trail| - 1] == FinalRecord(config, info, now, c).status
  {
    var trail := StatusTrail(c.failure);
    var k := StatusesReached(c.failure);
    assert trail[..k] == Forward[..k];
    forall i | 0 <= i < |Forward| ensures Rank(Forward[i]) == i {
    }
    if c.failure.None? {
      assert trail == Forward;
    } else {
      assert trail[k] == Failed;
      assert PrCreated !in trail by {
        forall i | 0 <= i < |trail| ensures trail[i] != PrCreated {
          if i < k {
            assert trail[i] == Forward[i];
          }
        }
      }
    }
  }

  /** A delivery without failure ends with the PR recorded and one commit. */
  lemma DeliverySucceeds(config: DeliveryConfig, info: GitHub.RepoInfo, now: nat, c: Collaborators)
    requires c.failure.None?
    ensures var d := FinalRecord(config, info, now, c);
      d.status == PrCreated && d.branchName == BranchName(config.taskDescription, now) &&
      d.commits == [Commit(c.commitHash, c.commitMessage)] && d.prNumber == Some(c.prNumber) &&
      d.repoOwner == info.owner && d.repoName == info.repo
    ensures Outcome(config, now, c).Ok? && Outcome(config, now, c).value.commits == [c.commitHash]
  {
    StageFields(config, info, now, c, 5);
  }

  /** A failed delivery ends FAILED, rethrows the collaborator's error, keeps the branch
      name only if the branch was created, the commit only if it was made, and never
      records a PR. */
  lemma DeliveryFails(config: DeliveryConfig, info: GitHub.RepoInfo, now: nat, c: Collaborators)
    requires c.failure.Some?
    ensures var d := FinalRecord(config, info, now, c);
      d.status == Failed && d.prNumber.None? &&
      (d.branchName == "" <==> c.failure.value.step == CreateBranch) &&
      (d.commits == [] <==> c.failure.value.step in {CreateBranch, GetChangedFiles, GetDiff, GenerateCommitMessage, CommitChanges})
    ensures Outcome(config, now, c) == Err(c.failure.value.error)
  {
    StageFields(config, info, now, c, StatusesReached(c.failure));
    var name := BranchName(config.taskDescription, now);
    assert name[|Label(DetectBranchType(config.taskDescription))|] == '/';
  }

  /** `findFirst` ordered by creation time, newest first: the last record of the task. */
  function LatestFor(deliveries: seq<DeliveryRecord>, taskId: string): (r: Option<nat>)
    ensures r.Some? ==> r.value < |deliveries| && deliveries[r.value].taskId == taskId
    ensures r.Some? ==> forall j :: r.value < j < |deliveries| ==> deliveries[j].taskId != taskId
    ensures r.None? ==> forall j :: 0 <= j < |deliveries| ==> deliveries[j].taskId != taskId
  {
    if deliveries == [] then None
    else if deliveries[|deliveries| - 1].taskId == taskId then Some(|deliveries| - 1)
    else LatestFor(deliveries[..|deliveries| - 1], taskId)
  }

  datatype PrComment = PrComment(owner: string, repo: string, prNumber: nat, body: string)

  const NoPr: string := "No PR found for this task"

  /** The guard of `respondToCodeReview`: a latest delivery with a truthy PR number. */
  function ReviewTarget(deliveries: seq<DeliveryRecord>, taskId: string): (r: Option<DeliveryRecord>)
    ensures r.Some? ==> r.value.prNumber.Some? && r.value.prNumber.value != 0
    ensures r.Some? <==> (LatestFor(deliveries, taskId).Some? &&
      deliveries[LatestFor(deliveries, taskId).value].prNumber.Some? &&
      deliveries[LatestFor(deliveries, taskId).value].prNumber.value != 0)
  {
    var latest := LatestFor(deliveries, taskId);
    if latest.None? then None
    else
      var d := deliveries[latest.value];
      if d.prNumber.None? || d.prNumber.value == 0 then None else Some(d)
  }

  /** The comments posted for a review, one per generated reply, in order. */
  function Replies(d: DeliveryRecord, replies: seq<string>): (r: seq<PrComment>)
    requires d.prNumber.Some?
    decreases |replies|
  {
    if replies == [] then []
    else Replies(d, replies[..|replies| - 1]) + [PrComment(d.repoOwner, d.repoName, d.prNumber.value, replies[|replies| - 1])]
  }

  /** The replies posted before the first one that failed: the texts of the leading
      successes, stopping at the first error (or at the end). */
  function Answered(replies: seq<Result<string>>): (r: seq<string>)
    ensures |r| <= |replies|
    ensures forall i :: 0 <= i < |r| ==> replies[i] == Ok(r[i])
    ensures |r| < |replies| ==> replies[|r|].Err?
  {
    if replies == [] || replies[0].Err? then []
    else [replies[0].value] + Answered(replies[1..])
  }

  /** Reply `i` goes to the delivery's pull request with the text generated for comment `i`. */
  lemma {:induction false} RepliesOnePerComment(d: DeliveryRecord, replies: seq<string>)
    requires d.prNumber.Some?
    ensures |Replies(d, replies)| == |replies|
    ensures forall i :: 0 <= i < |replies| ==>
      Replies(d, replies)[i] == PrComment(d.repoOwner, d.repoName, d.prNumber.value, replies[i])
  {
    if replies != [] {
      RepliesOnePerComment(d, replies[..|replies| - 1]);
    }
  }

  // ---------------------------------------------------------------------------
  // The service

  class DeliveryService {
    /** The delivery table, in creation order. */
    var deliveries: seq<DeliveryRecord>
    /** The comments posted on pull requests. */
    var posted: seq<PrComment>
    /** Every status each record has held, in order. */
    ghost var statusLog: seq<seq<DeliveryStatus>>

    ghost predicate Valid()
      reads this
    {
      |statusLog| == |deliveries| &&
      forall i :: 0 <= i < |statusLog| ==>
        statusLog[i] != [] && statusLog[i][|statusLog[i]| - 1] == deliveries[i].status
    }

    constructor()
      ensures Valid() && deliveries == [] && posted == []
    {
      deliveries := [];
      posted := [];
      statusLog := [];
    }

    /** A delivery in progress: after `j` status writes its record is the newest one,
        on top of `base`, and has held the first `j` statuses. */
    ghost predicate AtStage(base: seq<DeliveryRecord>, baseLog: seq<seq<DeliveryStatus>>,
                            config: DeliveryConfig, info: GitHub.RepoInfo, now: nat, c: Collaborators, j: nat)
      requires 1 <= j <= 5
      reads this
    {
      Valid() && deliveries == base + [Stage(config, info, now, c, j)] && statusLog == baseLog + [Forward[..j]]
    }

    /** A delivery that has returned or rethrown: its record is final. */
    ghost predicate Finished(base: seq<DeliveryRecord>, baseLog: seq<seq<DeliveryStatus>>,
                             config: DeliveryConfig, info: GitHub.RepoInfo, now: nat, c: Collaborators)
      reads this
    {
      Valid() && deliveries == base + [FinalRecord(config, info, now, c)] &&
      statusLog == baseLog + [StatusTrail(c.failure)]
    }

    /** `prisma.delivery.create`: a new record, with its first status. */
    method Create(d: DeliveryRecord)
      requires Valid()
      modifies this
      ensures Valid() && deliveries == old(deliveries) + [d] && statusLog == old(statusLog) + [[d.status]]
      ensures posted == old(posted)
    {
      deliveries := deliveries + [d];
      statusLog := statusLog + [[d.status]];
    }

    /** `prisma.delivery.update` on the newest record, rewriting it to `d` with status `s`. */
    method UpdateNewest(ghost base: seq<DeliveryRecord>, ghost baseLog: seq<seq<DeliveryStatus>>,
                        ghost trail: seq<DeliveryStatus>, d: DeliveryRecord)
      requires Valid() && |deliveries| == |base| + 1 && deliveries[..|base|] == base
      requires statusLog == baseLog + [trail]
      modifies this
      ensures Valid() && deliveries == base + [d] && statusLog == baseLog + [trail + [d.status]]
      ensures posted == old(posted)
    {
      deliveries := deliveries[|deliveries| - 1 := d];
      statusLog := statusLog[|base| := trail + [d.status]];
      assert deliveries == base + [d];
    }

    /** The update after step `j` succeeded: the record advances to stage `j + 1`. */
    method Advance(ghost base: seq<DeliveryRecord>, ghost baseLog: seq<seq<DeliveryStatus>>,
                   config: DeliveryConfig, info: GitHub.RepoInfo, now: nat, c: Collaborators,
                   ghost j: nat, d: DeliveryRecord)
      requires 1 <= j <= 4 && AtStage(base, baseLog, config, info, now, c, j)
      requires d == Stage(config, info, now, c, j + 1)
      modifies this
      ensures AtStage(base, baseLog, config, info, now, c, j + 1) && posted == old(posted)
    {
      assert deliveries[..|base|] == base;
      StageFields(config, info, now, c, j + 1);
      ForwardStep(j);
      UpdateNewest(base, baseLog, Forward[..j], d);
    }

    /** One of the collaborator calls between status write `j` and the next throws. */
    predicate FailsIn(c: Collaborators, j: nat) {
      c.failure.Some? && StatusesReached(c.failure) == j
    }

    /** The catch block: the record is marked FAILED and the error rethrown. */
    method FailNewest(ghost base: seq<DeliveryRecord>, ghost baseLog: seq<seq<DeliveryStatus>>,
                      config: DeliveryConfig, info: GitHub.RepoInfo, now: nat, c: Collaborators,
                      ghost j: nat, d: DeliveryRecord)
      returns (r: Result<Delivered>)
      requires 1 <= j <= 4 && c.failure.Some? && StatusesReached(c.failure) == j
      requires d == Stage(config, info, now, c, j) && AtStage(base, baseLog, config, info, now, c, j)
      modifies this
      ensures Finished(base, baseLog, config, info, now, c)
      ensures posted == old(posted) && r == Outcome(config, now, c)
    {
      assert deliveries[..|base|] == base;
      UpdateNewest(base, baseLog, Forward[..j], d.(status := Failed));
      r := Err(c.failure.value.error);
    }

    /** Without a failure the record ends at the last stage. */
    lemma SuccessFinal(base: seq<DeliveryRecord>, baseLog: seq<seq<DeliveryStatus>>,
                       config: DeliveryConfig, info: GitHub.RepoInfo, now: nat, c: Collaborators)
      requires c.failure.None? && AtStage(base, baseLog, config, info, now, c, 5)
      ensures Finished(base, baseLog, config, info, now, c)
    {
      assert Forward[..5] == Forward;
      assert StatusTrail(c.failure) == Forward[..5];
    }

    /** `deliverChanges`: an unparsable URL throws before any record exists; otherwise
        one record is created and advanced step by step until a collaborator throws. */
    method DeliverChanges(config: DeliveryConfig, now: nat, c: Collaborators) returns (r: Result<Delivered>)
      requires Valid()
      modifies this
      ensures Valid()
      ensures posted == old(posted)
      ensures GitHub.ParseRepoUrl(config.repoUrl).None? ==>
        r == Err(InvalidUrl) && deliveries == old(deliveries) && statusLog == old(statusLog)
      ensures GitHub.ParseRepoUrl(config.repoUrl).Some? ==>
        deliveries == old(deliveries) + [FinalRecord(config, GitHub.ParseRepoUrl(config.repoUrl).value, now, c)] &&
        statusLog == old(statusLog) + [StatusTrail(c.failure)] &&
        r == Outcome(config, now, c)
    {
      var parsed := GitHub.ParseRepoUrl(config.repoUrl);
      if parsed.None? {
        return Err(InvalidUrl);
      }
      var info := parsed.value;
      ghost var base := deliveries;
      ghost var baseLog := statusLog;
      var d := DeliveryRecord(config.taskId, info.owner, info.repo, config.baseBranch,
                              "", Pending, [], None, None, None, None);
      Create(d);
      assert Forward[..1] == [Pending];
      r := Proceed(base, baseLog, config, info, now, c, d);
    }

    /** The steps of `deliverChanges` after the record exists: the branch first. */
    method Proceed(ghost base: seq<DeliveryRecord>, ghost baseLog: seq<seq<DeliveryStatus>>,
              config: DeliveryConfig, info: GitHub.RepoInfo, now: nat, c: Collaborators,
              d: DeliveryRecord)
      returns (r: Result<Delivered>)
      requires d == Stage(config, info, now, c, 1) && AtStage(base, baseLog, config, info, now, c, 1)
      modifies this
      ensures Finished(base, baseLog, config, info, now, c)
      ensures posted == old(posted) && r == Outcome(config, now, c)
    {
      if FailsIn(c, 1) {
        r := FailNewest(base, baseLog, config, info, now, c, 1, d);
        return;
      }
      BranchStage(config, info, now, c, d);
      var next := d.(branchName := BranchName(config.taskDescription, now), status := BranchCreated);
      Advance(base, baseLog, config, info, now, c, 1, next);
      r := CommitWork(base, baseLog, config, info, now, c, next);
    }

    /** Collecting the changes and committing them. */
    method CommitWork(ghost base: seq<DeliveryRecord>, ghost baseLog: seq<seq<DeliveryStatus>>,
              config: DeliveryConfig, info: GitHub.RepoInfo, now: nat, c: Collaborators,
              d: DeliveryRecord)
      returns (r: Result<Delivered>)
      requires d == Stage(config, info, now, c, 2) && AtStage(base, baseLog, config, info, now, c, 2)
      requires 2 <= StatusesReached(c.failure)
      modifies this
      ensures Finished(base, baseLog, config, info, now, c)
      ensures posted == old(posted) && r == Outcome(config, now, c)
    {
      if FailsIn(c, 2) {
        r := FailNewest(base, baseLog, config, info, now, c, 2, d);
        return;
      }
      CommitStage(config, info, now, c, d);
      var next := d.(commits := [Commit(c.commitHash, c.commitMessage)], status := Committed);
      Advance(base, baseLog, config, info, now, c, 2, next);
      r := Push(base, baseLog, config, info, now, c, next);
    }

    /** Pushing the branch. */
    method Push(ghost base: seq<DeliveryRecord>, ghost baseLog: seq<seq<DeliveryStatus>>,
              config: DeliveryConfig, info: GitHub.RepoInfo, now: nat, c: Collaborators,
              d: DeliveryRecord)
      returns (r: Result<Delivered>)
      requires d == Stage(config, info, now, c, 3) && AtStage(base, baseLog, config, info, now, c, 3)
      requires 3 <= StatusesReached(c.failure)
      modifies this
      ensures Finished(base, baseLog, config, info, now, c)
      ensures posted == old(posted) && r == Outcome(config, now, c)
    {
      if FailsIn(c, 3) {
        r := FailNewest(base, baseLog, config, info, now, c, 3, d);
        return;
      }
      PushStage(config, info, now, c, d);
      var next := d.(status := Pushed);
      Advance(base, baseLog, config, info, now, c, 3, next);
      r := OpenPullRequest(base, baseLog, config, info, now, c, next);
    }

    /** Describing and opening the pull request, then returning the result. */
    method OpenPullRequest(ghost base: seq<DeliveryRecord>, ghost baseLog: seq<seq<DeliveryStatus>>,
              config: DeliveryConfig, info: GitHub.RepoInfo, now: nat, c: Collaborators,
              d: DeliveryRecord)
      returns (r: Result<Delivered>)
      requires d == Stage(config, info, now, c, 4) && AtStage(base, baseLog, config, info, now, c, 4)
      requires 4 <= StatusesReached(c.failure)
      modifies this
      ensures Finished(base, baseLog, config, info, now, c)
      ensures posted == old(posted) && r == Outcome(config, now, c)
    {
      if FailsIn(c, 4) {
        r := FailNewest(base, baseLog, config, info, now, c, 4, d);
        return;
      }
      PrStage(config, info, now, c, d);
      var next := d.(prNumber := Some(c.prNumber), prUrl := Some(c.prUrl),
                     prTitle := Some(c.prTitle), prBody := Some(c.prBody), status := PrCreated);
      Advance(base, baseLog, config, info, now, c, 4, next);
      SuccessFinal(base, baseLog, config, info, now, c);
      r := Ok(Delivered(BranchName(config.taskDescription, now), c.prNumber, c.prUrl, [c.commitHash]));
    }

    /** `getDeliveryStatus`: the task's most recent delivery record, if any. */
    function GetDeliveryStatus(taskId: string): (r: Option<DeliveryRecord>)
      reads this
      ensures r.Some? <==> exists i :: 0 <= i < |deliveries| && deliveries[i].taskId == taskId
      ensures r.Some? ==> r.value.taskId == taskId && r.value in deliveries
      ensures r.Some? ==> exists i :: (0 <= i < |deliveries| && deliveries[i] == r.value &&
                                       forall j :: i < j < |deliveries| ==> deliveries[j].taskId != taskId)
    {
      var latest := LatestFor(deliveries, taskId);
      if latest.None? then None else Some(deliveries[latest.value])
    }

    /** `respondToCodeReview`: without a PR on the latest delivery it throws and posts
        nothing; otherwise it posts one reply per review comment, in order, until
        generating or posting a reply throws, and then rethrows that error.
        `replies[i]` is what answering comment `i` came to: the posted text, or the
        error `respondToReview` or `addPRComment` threw for it. */
    method RespondToCodeReview(taskId: string, reviewComments: seq<string>, replies: seq<Result<string>>)
      returns (r: Result<()>)
      requires |replies| == |reviewComments|
      modifies this
      ensures deliveries == old(deliveries) && statusLog == old(statusLog)
      ensures ReviewTarget(deliveries, taskId).None? ==> r == Err(NoPr) && posted == old(posted)
      ensures ReviewTarget(deliveries, taskId).Some? ==>
        posted == old(posted) + Replies(ReviewTarget(deliveries, taskId).value, Answered(replies))
      ensures ReviewTarget(deliveries, taskId).Some? ==>
        if |Answered(replies)| == |replies| then r == Ok(())
        else r == Err(replies[|Answered(replies)|].error)
    {
      var target := ReviewTarget(deliveries, taskId);
      if target.None? {
        return Err(NoPr);
      }
      var d := target.value;
      ghost var answered := Answered(replies);
      for i := 0 to |reviewComments|
        invariant deliveries == old(deliveries) && statusLog == old(statusLog)
        invariant i <= |answered|
        invariant posted == old(posted) + Replies(d, answered[..i])
      {
        if replies[i].Err? {
          assert i == |answered| && answered[..i] == answered;
          return Err(replies[i].error);
        }
        assert answered[..i + 1][..i] == answered[..i];
        posted := posted + [PrComment(d.repoOwner, d.repoName, d.prNumber.value, replies[i].value)];
      }
      assert answered[..|reviewComments|] == answered;
      r := Ok(());
    }
  }
}
