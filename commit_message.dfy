/** `deriveCommitMessage(task)`: a conventional commit message
    `<type>(<task_id>): <subject>`. The type comes from the file name's second
    hyphen segment; the subject is the text after a `# Objective` heading,
    else the first level-one heading, else the humanized file name, cut to 72
    characters. The two regular expressions are modelled by their match
    semantics: leftmost start, greedy `\s+` with backtracking, greedy
    `[^\n]+`. */
module CommitMessage {
  import opened Wrappers
  import opened Text
  import opened TaskModel

  /** The length of the whitespace run starting at `j`. */
  function SpaceRun(s: string, j: nat): (n: nat)
    requires j <= |s|
    ensures j + n <= |s|
    ensures forall q :: j <= q < j + n ==> IsSpace(s[q])
    ensures j + n == |s| || !IsSpace(s[j + n])
    decreases |s| - j
  {
    if j < |s| && IsSpace(s[j]) then 1 + SpaceRun(s, j + 1) else 0
  }

  /** What `[^\n]+` consumes from `p`: up to the next newline or the end. */
  function LineFrom(s: string, p: nat): (r: string)
    requires p <= |s|
    ensures p + |r| <= |s| && r == s[p..p + |r|]
    ensures '\n' !in r
    ensures p + |r| == |s| || s[p + |r|] == '\n'
    decreases |s| - p
  {
    if p < |s| && s[p] != '\n' then [s[p]] + LineFrom(s, p + 1) else []
  }

  /** Where `\s+([^\n]+)` starts its capture after position `j`: `\s+` takes
      the longest run of whitespace that still leaves one non-newline
      character for the capture, giving back one character at a time. */
  function CaptureStart(s: string, j: nat, k: nat): (p: Option<nat>)
    requires j + k <= |s|
    ensures p.Some? ==> j < p.value <= j + k && p.value < |s| && s[p.value] != '\n'
    ensures p.Some? ==> forall q :: p.value < q <= j + k ==> !(q < |s| && s[q] != '\n')
    ensures p.None? ==> forall q :: j < q <= j + k ==> !(q < |s| && s[q] != '\n')
    decreases k
  {
    if k == 0 then None
    else if j + k < |s| && s[j + k] != '\n' then Some(j + k)
    else CaptureStart(s, j, k - 1)
  }

  /** `\s+([^\n]+)` matched at `j`: the capture, if the tail matches. */
  function Tail(s: string, j: nat): (c: Option<string>)
    requires j <= |s|
    ensures c.Some? ==> c.value != "" && '\n' !in c.value
  {
    var p := CaptureStart(s, j, SpaceRun(s, j));
    if p.Some? then
      var line := LineFrom(s, p.value);
      assert line[0] == s[p.value];
      Some(line)
    else None
  }

  /** The tail matches exactly when some split of the whitespace run leaves a
      non-newline character to capture. */
  lemma TailMatches(s: string, j: nat)
    requires j <= |s|
    ensures Tail(s, j).Some? <==>
      exists p :: j < p <= j + SpaceRun(s, j) && p < |s| && s[p] != '\n'
  {
    var p := CaptureStart(s, j, SpaceRun(s, j));
    if p.Some? {
      assert j < p.value <= j + SpaceRun(s, j) && p.value < |s| && s[p.value] != '\n';
    }
  }

  /** The pattern `pat` (in lower case) occurs at `i`, letters compared without case. */
  predicate MatchesIgnoringCase(s: string, i: nat, pat: string)
  {
    i + |pat| <= |s| && forall k :: 0 <= k < |pat| ==> LowerChar(s[i + k]) == pat[k]
  }

  const OBJECTIVE: string := "# objective"

  /** `/# Objective\s+([^\n]+)/i` tried at position `i`. */
  function ObjectiveAt(s: string, i: nat): Option<string>
  {
    if MatchesIgnoringCase(s, i, OBJECTIVE) then Tail(s, i + |OBJECTIVE|) else None
  }

  /** `^` of a multiline pattern: the start, or just after a line terminator. */
  predicate LineStart(s: string, i: nat)
  {
    i == 0 || (i <= |s| && IsLineTerminator(s[i - 1]))
  }

  /** `/^#\s+([^\n]+)/m` tried at position `i`. */
  function H1At(s: string, i: nat): Option<string>
  {
    if LineStart(s, i) && i < |s| && s[i] == '#' then Tail(s, i + 1) else None
  }

  /** Where `/# Objective\s+([^\n]+)/i` first matches, from `from` on. */
  function FirstObjective(s: string, from: nat): (r: Option<nat>)
    ensures r.Some? ==> from <= r.value <= |s| && ObjectiveAt(s, r.value).Some?
    ensures r.Some? ==> forall i :: from <= i < r.value ==> ObjectiveAt(s, i).None?
    ensures r.None? ==> forall i :: from <= i <= |s| ==> ObjectiveAt(s, i).None?
    decreases |s| - from
  {
    if from > |s| then None
    else if ObjectiveAt(s, from).Some? then Some(from)
    else FirstObjective(s, from + 1)
  }

  /** Where `/^#\s+([^\n]+)/m` first matches, from `from` on. */
  function FirstH1(s: string, from: nat): (r: Option<nat>)
    ensures r.Some? ==> from <= r.value <= |s| && H1At(s, r.value).Some?
    ensures r.Some? ==> forall i :: from <= i < r.value ==> H1At(s, i).None?
    ensures r.None? ==> forall i :: from <= i <= |s| ==> H1At(s, i).None?
    decreases |s| - from
  {
    if from > |s| then None
    else if H1At(s, from).Some? then Some(from)
    else FirstH1(s, from + 1)
  }

  /** The capture of the objective match, if any. */
  function Objective(s: string): Option<string>
  {
    match FirstObjective(s, 0)
    case None => None
    case Some(i) => ObjectiveAt(s, i)
  }

  /** The capture of the first-heading match, if any. */
  function H1(s: string): Option<string>
  {
    match FirstH1(s, 0)
    case None => None
    case Some(i) => H1At(s, i)
  }

  /** `fileName.replace(/\.md$/, '')`. */
  function StripMd(fileName: string): (r: string)
    ensures EndsWith(fileName, ".md") ==> r + ".md" == fileName
    ensures !EndsWith(fileName, ".md") ==> r == fileName
  {
    if EndsWith(fileName, ".md") then fileName[..|fileName| - 3] else fileName
  }

  /** `humanizeFilename(fileName)`. */
  function Humanize(fileName: string): string
  {
    var name := StripMd(fileName);
    var parts := SplitOn(name, '-');
    if |parts| >= 3 && IsDigits(parts[0]) then Join(parts[2..], " ") else ReplaceChar(name, '-', ' ')
  }

  /** Joining pieces that lack a character with a separator that lacks it too
      yields a string without it. */
  lemma {:induction false} JoinAvoids(parts: seq<string>, sep: string, c: char)
    requires forall k :: 0 <= k < |parts| ==> c !in parts[k]
    requires c !in sep
    ensures c !in Join(parts, sep)
  {
    if |parts| > 1 {
      JoinAvoids(parts[1..], sep, c);
    }
  }

  /** A humanized name contains no hyphen; without the `NNNN-TYPE-` prefix it
      is the name with each hyphen turned into a space, and with it, the rest
      of the name so turned. */
  lemma HumanizeProperties(fileName: string)
    ensures '-' !in Humanize(fileName)
    ensures var parts := SplitOn(StripMd(fileName), '-');
      !(|parts| >= 3 && IsDigits(parts[0])) ==> Humanize(fileName) == ReplaceChar(StripMd(fileName), '-', ' ')
    ensures var parts := SplitOn(StripMd(fileName), '-');
      |parts| >= 3 && IsDigits(parts[0]) ==> Humanize(fileName) == ReplaceChar(Join(parts[2..], "-"), '-', ' ')
  {
    var parts := SplitOn(StripMd(fileName), '-');
    if |parts| >= 3 && IsDigits(parts[0]) {
      JoinAvoids(parts[2..], " ", '-');
      SplitJoin(Join(parts[2..], "-"), '-', ' ');
      JoinSplit(parts[2..], '-');
    }
  }

  /** `truncateSubject(subject)`. */
  function Truncate(subject: string): (r: string)
    ensures |subject| <= 72 ==> r == subject
    ensures |subject| > 72 ==> |r| == 75 && r[..72] == subject[..72] && r[72..] == "..."
  {
    if |subject| <= 72 then subject else subject[..72] + "..."
  }

  /** The segment the type is read from, upper-cased; none without a hyphen. */
  function TypeSegment(fileName: string): Option<string>
  {
    var parts := SplitOn(ToUpper(fileName), '-');
    if |parts| < 2 then None else Some(parts[1])
  }

  /** `deriveType(fileName)`. */
  function DeriveType(fileName: string): (t: string)
    ensures t == "fix" <==> TypeSegment(fileName) == Some("FIX") || TypeSegment(fileName) == Some("BUG")
    ensures t == "test" <==> TypeSegment(fileName) == Some("TEST")
    ensures t == "docs" <==> TypeSegment(fileName) == Some("DOCS")
    ensures t == "feat" <==> TypeSegment(fileName) !in {Some("FIX"), Some("BUG"), Some("TEST"), Some("DOCS")}
  {
    var parts := SplitOn(ToUpper(fileName), '-');
    if |parts| < 2 then "feat"
    else
      var typePart := parts[1];
      if typePart == "FIX" || typePart == "BUG" then "fix"
      else if typePart == "TEST" then "test"
      else if typePart == "DOCS" then "docs"
      else "feat"
  }

  /** A file name without a hyphen is always a feature. */
  lemma NoHyphenIsFeat(fileName: string)
    requires '-' !in fileName
    ensures DeriveType(fileName) == "feat"
  {
    assert '-' !in ToUpper(fileName) by {
      forall k | 0 <= k < |fileName|
        ensures ToUpper(fileName)[k] != '-'
      {
        assert fileName[k] != '-';
      }
    }
    SplitWithoutSeparator(ToUpper(fileName), '-');
  }

  /** The trimmed capture of a match, empty when there is none. */
  function Trimmed(m: Option<string>): string
  {
    if m.Some? then Trim(m.value) else ""
  }

  /** `deriveSubject(task)`: the first non-empty of the trimmed objective, the
      trimmed first heading and the humanized file name, and then truncated. */
  function DeriveSubject(content: string, fileName: string): (r: string)
    ensures Trimmed(Objective(content)) != "" ==> r == Truncate(Trimmed(Objective(content)))
    ensures Trimmed(Objective(content)) == "" && Trimmed(H1(content)) != "" ==>
      r == Truncate(Trimmed(H1(content)))
    ensures Trimmed(Objective(content)) == "" && Trimmed(H1(content)) == "" ==>
      r == Truncate(Humanize(fileName))
    ensures |r| <= 75
  {
    var subject := Trimmed(Objective(content));
    var subject' := if subject != "" then subject else Trimmed(H1(content));
    var subject'' := if subject' != "" then subject' else Humanize(fileName);
    Truncate(subject'')
  }

  /** Empty content has no heading, so the subject falls back to the file name. */
  lemma EmptyContentUsesFileName(fileName: string)
    ensures DeriveSubject("", fileName) == Truncate(Humanize(fileName))
  {
    assert ObjectiveAt("", 0).None?;
    assert H1At("", 0).None? by {
      assert !(0 < |""|);
    }
  }

  /** The scope part: `(<task_id>)` for a truthy id, else nothing. */
  function ScopePart(taskId: Option<string>): (r: string)
    ensures Truthy(taskId) ==> r == "(" + taskId.value + ")"
    ensures !Truthy(taskId) ==> r == ""
  {
    if Truthy(taskId) then "(" + taskId.value + ")" else ""
  }

  /** `deriveCommitMessage(task)`: the type, the optional scope, then `: ` and the subject. */
  function DeriveCommitMessage(task: Task): (m: string)
    ensures StartsWith(m, DeriveType(task.fileName))
    ensures EndsWith(m, ": " + DeriveSubject(task.content, task.fileName))
  {
    var t := DeriveType(task.fileName);
    var scope := ScopePart(task.data.taskId);
    var tail := ": " + DeriveSubject(task.content, task.fileName);
    ThreeParts(t, scope, tail);
    t + scope + tail
  }

  lemma ThreeParts(t: string, scope: string, tail: string)
    ensures StartsWith(t + scope + tail, t) && EndsWith(t + scope + tail, tail)
  {
    StartsWithConcat(t, scope + tail);
    EndsWithConcat(t + scope, tail);
    assert t + (scope + tail) == t + scope + tail;
  }

  /** With a truthy task id the type is followed by the id in parentheses;
      without one, by the subject directly. */
  lemma CommitMessageScope(task: Task)
    ensures Truthy(task.data.taskId) ==>
      StartsWith(DeriveCommitMessage(task), DeriveType(task.fileName) + "(" + task.data.taskId.value + ")")
    ensures Truthy(task.data.taskId) ==>
      DeriveCommitMessage(task) == DeriveType(task.fileName) + "(" + task.data.taskId.value + "): " + DeriveSubject(task.content, task.fileName)
    ensures !Truthy(task.data.taskId) ==>
      DeriveCommitMessage(task) == DeriveType(task.fileName) + ": " + DeriveSubject(task.content, task.fileName)
  {
    MessageLayout(DeriveType(task.fileName), task.data.taskId, DeriveSubject(task.content, task.fileName));
  }

  lemma MessageLayout(t: string, taskId: Option<string>, subject: string)
    ensures Truthy(taskId) ==> StartsWith(t + ScopePart(taskId) + (": " + subject), t + "(" + taskId.value + ")")
    ensures Truthy(taskId) ==> t + ScopePart(taskId) + (": " + subject) == t + "(" + taskId.value + "): " + subject
    ensures !Truthy(taskId) ==> t + ScopePart(taskId) + (": " + subject) == t + ": " + subject
  {
    StartsWithConcat(t + ScopePart(taskId), ": " + subject);
    if Truthy(taskId) {
      var id := taskId.value;
      assert "(" + id + ")" + (": " + subject) == "(" + id + "): " + subject;
      assert t + ("(" + id + ")") + (": " + subject) == t + ("(" + id + ")" + (": " + subject));
      assert t + ("(" + id + "): " + subject) == t + "(" + id + "): " + subject;
    }
  }

  lemma UpperExample()
    ensures ToUpper("0022-BUG-malformed.md") == "0022-BUG-MALFORMED.MD"
  {
  }

  lemma SplitExample()
    ensures SplitOn("0022-BUG-MALFORMED.MD", '-') == ["0022", "BUG", "MALFORMED.MD"]
  {
    SplitThree("0022", "BUG", "MALFORMED.MD", '-');
    assert "0022" + ['-'] + "BUG" + ['-'] + "MALFORMED.MD" == "0022-BUG-MALFORMED.MD";
  }

  /** The malformed-content case: an empty body and `0022-BUG-malformed.md`
      give the type `fix` and the subject `malformed`. */
  lemma MalformedExample()
    ensures DeriveType("0022-BUG-malformed.md") == "fix"
    ensures DeriveSubject("", "0022-BUG-malformed.md") == "malformed"
  {
    TypeExample();
    HumanizeExample();
    EmptyContentUsesFileName("0022-BUG-malformed.md");
  }

  lemma TypeExample()
    ensures DeriveType("0022-BUG-malformed.md") == "fix"
  {
    UpperExample();
    SplitExample();
  }

  lemma HumanizeExample()
    ensures Humanize("0022-BUG-malformed.md") == "malformed"
  {
    var f := "0022-BUG-malformed.md";
    var parts := ["0022", "BUG", "malformed"];
    StripExample();
    NameSplitExample();
    assert SplitOn(StripMd(f), '-') == parts;
    assert IsDigits(parts[0]) by {
      assert IsDigit("0022"[0]) && IsDigit("0022"[1]) && IsDigit("0022"[2]) && IsDigit("0022"[3]);
    }
    assert parts[2..] == ["malformed"];
    NumberedName(f, parts);
  }

  lemma NumberedName(f: string, parts: seq<string>)
    requires SplitOn(StripMd(f), '-') == parts
    requires |parts| >= 3 && IsDigits(parts[0])
    ensures Humanize(f) == Join(parts[2..], " ")
  {
  }

  lemma StripExample()
    ensures StripMd("0022-BUG-malformed.md") == "0022-BUG-malformed"
  {
    var f := "0022-BUG-malformed.md";
    assert f[|f| - 3..] == ".md";
    assert f[..|f| - 3] == "0022-BUG-malformed";
  }

  lemma NameSplitExample()
    ensures SplitOn("0022-BUG-malformed", '-') == ["0022", "BUG", "malformed"]
  {
    var parts := ["0022", "BUG", "malformed"];
    assert '-' !in parts[0] && '-' !in parts[1] && '-' !in parts[2];
    JoinTriple(parts[0], parts[1], parts[2], "-");
    assert Join(parts, ['-']) == "0022-BUG-malformed";
    JoinSplit(parts, '-');
  }

  /** With no newline after `p`, the capture runs to the end. */
  lemma LineToEnd(s: string, p: nat)
    requires p <= |s| && '\n' !in s[p..]
    ensures LineFrom(s, p) == s[p..]
  {
  }

  /** The objective line is taken as the subject. */
  lemma ObjectiveExample()
    ensures Objective("# Objective\nTest no ID") == Some("Test no ID")
  {
    var s := "# Objective\nTest no ID";
    HeaderExample();
    TailExample();
    assert ObjectiveAt(s, 0) == Some("Test no ID");
    assert FirstObjective(s, 0) == Some(0);
  }

  lemma HeaderExample()
    ensures MatchesIgnoringCase("# Objective\nTest no ID", 0, OBJECTIVE)
  {
    var s := "# Objective\nTest no ID";
    assert s[..11] == "# Objective";
  }

  lemma TailExample()
    ensures Tail("# Objective\nTest no ID", 11) == Some("Test no ID")
  {
    var s := "# Objective\nTest no ID";
    assert SpaceRun(s, 12) == 0;
    assert SpaceRun(s, 11) == 1;
    assert CaptureStart(s, 11, 1) == Some(12);
    assert s[12..] == "Test no ID";
    LineToEnd(s, 12);
  }

  /** A task without an id: `0023-FEAT-no-id.md` with `# Objective\nTest no ID`
      gives `feat: Test no ID`. */
  lemma NoIdExample(task: Task)
    requires task.data.taskId.None?
    requires task.fileName == "0023-FEAT-no-id.md" && task.content == "# Objective\nTest no ID"
    ensures DeriveCommitMessage(task) == "feat: Test no ID"
  {
    CommitMessageScope(task);
    FeatTypeExample();
    NoIdSubjectExample();
    ConcatExample(DeriveCommitMessage(task), DeriveType(task.fileName), DeriveSubject(task.content, task.fileName));
  }

  lemma ConcatExample(m: string, t: string, subject: string)
    requires m == t + ": " + subject && t == "feat" && subject == "Test no ID"
    ensures m == "feat: Test no ID"
  {
  }

  lemma FeatTypeExample()
    ensures DeriveType("0023-FEAT-no-id.md") == "feat"
  {
    assert ToUpper("0023-FEAT-no-id.md") == "0023-FEAT-NO-ID.MD";
    SplitFour("0023", "FEAT", "NO", "ID.MD", '-');
    assert "0023" + ['-'] + "FEAT" + ['-'] + "NO" + ['-'] + "ID.MD" == "0023-FEAT-NO-ID.MD";
  }

  lemma NoIdSubjectExample()
    ensures DeriveSubject("# Objective\nTest no ID", "0023-FEAT-no-id.md") == "Test no ID"
  {
    ObjectiveExample();
    NoIdTrimmed();
    SubjectFromObjective("# Objective\nTest no ID", "0023-FEAT-no-id.md", "Test no ID");
  }

  lemma NoIdTrimmed()
    ensures Trim("Test no ID") == "Test no ID"
  {
    var t := "Test no ID";
    assert !IsSpace(t[0]) && !IsSpace(t[|t| - 1]);
  }

  /** A non-empty, already trimmed objective of at most 72 characters is the subject. */
  lemma SubjectFromObjective(content: string, fileName: string, o: string)
    requires Objective(content) == Some(o) && Trim(o) == o && o != "" && |o| <= 72
    ensures DeriveSubject(content, fileName) == o
  {
  }

}
