/** The JavaScript string operations the services rely on: `join`, `split`
    (by a single character, and by runs of a character class with the empty
    pieces dropped), `trim`, `toUpperCase`, `includes`, `endsWith`, and the
    decimal rendering of numbers in template literals. */
module Text {

  /** `parts.join(sep)`. */
  function Join(parts: seq<string>, sep: string): string
  {
    if |parts| == 0 then ""
    else if |parts| == 1 then parts[0]
    else parts[0] + sep + Join(parts[1..], sep)
  }

  /** Joining two non-empty lists puts exactly one separator between their joins. */
  lemma {:induction false} JoinAppend(a: seq<string>, b: seq<string>, sep: string)
    requires |a| > 0 && |b| > 0
    ensures Join(a + b, sep) == Join(a, sep) + sep + Join(b, sep)
  {
    if |a| == 1 {
      assert (a + b)[1..] == b;
    } else {
      assert (a + b)[1..] == a[1..] + b;
      JoinAppend(a[1..], b, sep);
    }
  }

  /** Each part preceded by the separator: what the parts add to a join
      after a non-empty front. */
  function Prefixed(parts: seq<string>, sep: string): string
  {
    if parts == [] then "" else sep + parts[0] + Prefixed(parts[1..], sep)
  }

  lemma {:induction false} PrefixedJoin(parts: seq<string>, sep: string)
    requires |parts| > 0
    ensures Prefixed(parts, sep) == sep + Join(parts, sep)
    decreases |parts|
  {
    if |parts| == 1 {
      assert Prefixed(parts[1..], sep) == "";
    } else {
      PrefixedJoin(parts[1..], sep);
      Regroup(sep + parts[0], sep, Join(parts[1..], sep));
    }
  }

  lemma {:induction false} PrefixedAppend(a: seq<string>, b: seq<string>, sep: string)
    ensures Prefixed(a + b, sep) == Prefixed(a, sep) + Prefixed(b, sep)
    decreases |a|
  {
    if a == [] {
      assert a + b == b;
    } else {
      assert (a + b)[0] == a[0] && (a + b)[1..] == a[1..] + b;
      PrefixedAppend(a[1..], b, sep);
      Regroup(sep + a[0], Prefixed(a[1..], sep), Prefixed(b, sep));
    }
  }

  lemma PrefixedOne(a: string, sep: string)
    ensures Prefixed([a], sep) == sep + a
  {
    assert [a][1..] == [];
  }

  lemma PrefixedTwo(a: string, b: string, sep: string)
    ensures Prefixed([a, b], sep) == sep + a + sep + b
  {
    assert [a, b][1..] == [b];
    PrefixedOne(b, sep);
    Regroup(sep + a, sep, b);
  }

  lemma PrefixedThree(a: string, b: string, c: string, sep: string)
    ensures Prefixed([a, b, c], sep) == sep + a + sep + b + sep + c
  {
    assert [a, b, c][1..] == [b, c];
    PrefixedTwo(b, c, sep);
    assert sep + a + (sep + b + sep + c) == sep + a + sep + b + sep + c;
  }

  /** A non-empty front followed by three groups of optional parts joins to
      the front's join and then each group's parts after a separator. */
  lemma JoinSections(front: seq<string>, c: seq<string>, f: seq<string>, h: seq<string>, sep: string)
    requires |front| > 0
    ensures Join(front + c + f + h, sep) == Join(front, sep) + Prefixed(c, sep) + Prefixed(f, sep) + Prefixed(h, sep)
  {
    SeqRegroup(front, c, f, h);
    JoinThenPrefixed(front, c + f + h, sep);
    PrefixedThreeGroups(c, f, h, sep);
    RegroupTail(Join(front, sep), Prefixed(c, sep), Prefixed(f, sep), Prefixed(h, sep));
  }

  lemma RegroupTail(j: string, a: string, b: string, c: string)
    ensures j + (a + b + c) == j + a + b + c
  {
  }

  lemma SeqRegroup(front: seq<string>, c: seq<string>, f: seq<string>, h: seq<string>)
    ensures front + c + f + h == front + (c + f + h)
  {
  }

  lemma PrefixedThreeGroups(c: seq<string>, f: seq<string>, h: seq<string>, sep: string)
    ensures Prefixed(c + f + h, sep) == Prefixed(c, sep) + Prefixed(f, sep) + Prefixed(h, sep)
  {
    PrefixedAppend(c + f, h, sep);
    PrefixedAppend(c, f, sep);
  }


  /** Joining a non-empty front and more parts: the front's join, then each
      further part after a separator. */
  lemma JoinThenPrefixed(front: seq<string>, rest: seq<string>, sep: string)
    requires |front| > 0
    ensures Join(front + rest, sep) == Join(front, sep) + Prefixed(rest, sep)
  {
    if rest == [] {
      assert front + rest == front;
    } else {
      JoinAppend(front, rest, sep);
      PrefixedJoin(rest, sep);
      Regroup(Join(front, sep), sep, Join(rest, sep));
    }
  }

  /** A join of two non-empty lists ends with the separator and the join of the second. */
  lemma JoinEndsWith(front: seq<string>, last: seq<string>, sep: string)
    requires |front| > 0 && |last| > 0
    ensures EndsWith(Join(front + last, sep), sep + Join(last, sep))
  {
    JoinAppend(front, last, sep);
    EndsWithConcat(Join(front, sep), sep + Join(last, sep));
    Regroup(Join(front, sep), sep, Join(last, sep));
  }

  /** The same, with the second list spelled out as three parts. */
  lemma JoinEndsWithTriple(x: string, a: string, b: string, c: string, sep: string)
    requires EndsWith(x, sep + Join([a, b, c], sep))
    ensures EndsWith(x, sep + a + sep + b + sep + c)
  {
    JoinTriple(a, b, c, sep);
  }

  /** Joining `front + rest` starts with the join of `front`, the separator and
      the first part of `rest`. */
  lemma JoinStartsWith(front: seq<string>, rest: seq<string>, sep: string)
    requires |front| > 0 && |rest| > 0
    ensures StartsWith(Join(front + rest, sep), Join(front, sep) + sep + rest[0])
  {
    var lead := Join(front, sep) + sep;
    JoinAppend(front, rest, sep);
    assert Join(front + rest, sep) == lead + Join(rest, sep);
    JoinFirst(rest, sep);
    StartsWithPrepend(lead, Join(rest, sep), rest[0]);
  }

  /** The same for the first two parts of `rest`. */
  lemma JoinStartsWithTwo(front: seq<string>, rest: seq<string>, sep: string)
    requires |front| > 0 && |rest| > 1
    ensures StartsWith(Join(front + rest, sep), Join(front, sep) + sep + rest[0] + sep + rest[1])
  {
    var front' := front + [rest[0]];
    assert front + rest == front' + rest[1..];
    JoinAppend(front, [rest[0]], sep);
    JoinStartsWith(front', rest[1..], sep);
  }

  /** A join starts with its first part, followed by the separator when more follow. */
  lemma JoinFirst(parts: seq<string>, sep: string)
    requires |parts| > 0
    ensures StartsWith(Join(parts, sep), parts[0])
    ensures |parts| == 1 ==> Join(parts, sep) == parts[0]
    ensures |parts| > 1 ==> Join(parts, sep) == parts[0] + sep + Join(parts[1..], sep)
  {
    if |parts| > 1 {
      assert (parts[0] + sep + Join(parts[1..], sep))[..|parts[0]|] == parts[0];
    }
  }

  lemma JoinTriple(a: string, b: string, c: string, sep: string)
    ensures Join([a, b, c], sep) == a + sep + b + sep + c
  {
    assert [a, b, c][1..] == [b, c];
    assert [b, c][1..] == [c];
    assert Join([c], sep) == c;
    assert Join([b, c], sep) == b + sep + c;
  }

  /** The character class `\s` of JavaScript regular expressions; `trim` strips the same set. */
  predicate IsSpace(c: char)
  {
    c == ' ' || c == '\t' || c == '\n' || c == '\r' || c == '\U{000B}' || c == '\U{000C}'
    || c == '\U{00A0}' || c == '\U{1680}' || ('\U{2000}' <= c <= '\U{200A}')
    || c == '\U{2028}' || c == '\U{2029}' || c == '\U{202F}' || c == '\U{205F}'
    || c == '\U{3000}' || c == '\U{FEFF}'
  }

  /** The line terminators after which `^` matches in a multiline regular expression. */
  predicate IsLineTerminator(c: char)
  {
    c == '\n' || c == '\r' || c == '\U{2028}' || c == '\U{2029}'
  }

  function TrimStart(s: string): (r: string)
    ensures |r| <= |s| && r == s[|s| - |r|..]
    ensures r != "" ==> !IsSpace(r[0])
    ensures forall k :: 0 <= k < |s| - |r| ==> IsSpace(s[k])
  {
    if s != [] && IsSpace(s[0]) then TrimStart(s[1..]) else s
  }

  function TrimEnd(s: string): (r: string)
    ensures |r| <= |s| && r == s[..|r|]
    ensures r != "" ==> !IsSpace(r[|r| - 1])
    ensures forall k :: |r| <= k < |s| ==> IsSpace(s[k])
  {
    if s != [] && IsSpace(s[|s| - 1]) then TrimEnd(s[..|s| - 1]) else s
  }

  /** `s.trim()`: the result is empty exactly when `s` is all whitespace. */
  function Trim(s: string): (r: string)
    ensures |r| <= |s|
    ensures r != "" ==> !IsSpace(r[0]) && !IsSpace(r[|r| - 1])
    ensures r == "" <==> forall k :: 0 <= k < |s| ==> IsSpace(s[k])
  {
    var t := TrimStart(s);
    assert t == "" || !IsSpace(s[|s| - |t|]);
    TrimEnd(t)
  }

  /** `toUpperCase` on one character (ASCII letters only). */
  function UpperChar(c: char): char
  {
    if 'a' <= c <= 'z' then (c as int - 32) as char else c
  }

  function ToUpper(s: string): (r: string)
    ensures |r| == |s|
    ensures forall k :: 0 <= k < |s| ==> r[k] == UpperChar(s[k])
  {
    seq(|s|, k requires 0 <= k < |s| => UpperChar(s[k]))
  }

  /** Case-insensitive comparison keys of the `/i` flag on ASCII letters. */
  function LowerChar(c: char): char
  {
    if 'A' <= c <= 'Z' then (c as int + 32) as char else c
  }

  predicate StartsWith(s: string, prefix: string)
  {
    |prefix| <= |s| && s[..|prefix|] == prefix
  }

  lemma StartsWithConcat(a: string, b: string)
    ensures StartsWith(a + b, a)
  {
    assert (a + b)[..|a|] == a;
  }

  lemma StartsWithPrepend(x: string, s: string, p: string)
    requires StartsWith(s, p)
    ensures StartsWith(x + s, x + p)
  {
    assert (x + s)[..|x + p|] == x + s[..|p|];
  }

  lemma StartsWithPrefix(s: string, a: string, b: string)
    requires StartsWith(s, a + b)
    ensures StartsWith(s, a)
  {
    assert s[..|a|] == (a + b)[..|a|];
  }

  /** `s.endsWith(suffix)`. */
  lemma StartsWithLead(a: string, b: string, c: string, d: string)
    ensures StartsWith(a + b + c + d, a + b)
  {
    assert a + b + c + d == (a + b) + (c + d);
    StartsWithConcat(a + b, c + d);
  }

  lemma StartsWithFirst(a: string, b: string, c: string, d: string)
    ensures StartsWith(a + b + c + d, a)
  {
    assert a + b + c + d == a + (b + c + d);
    StartsWithConcat(a, b + c + d);
  }

  lemma Regroup4(h: string, a: string, b: string, c: string, d: string)
    ensures h + (a + b + c + d) == h + a + b + c + d
  {
  }

  predicate EndsWith(s: string, suffix: string)
  {
    |suffix| <= |s| && s[|s| - |suffix|..] == suffix
  }

  lemma EndsWithConcat(a: string, b: string)
    ensures EndsWith(a + b, b)
  {
    assert (a + b)[|a + b| - |b|..] == b;
  }

  /** `s.includes(sub)`. */
  predicate Contains(s: string, sub: string)
  {
    StartsWith(s, sub) || (s != [] && Contains(s[1..], sub))
  }

  /** An occurrence at any position makes `includes` true. */
  lemma {:induction false} ContainsAt(s: string, sub: string, i: nat)
    requires i + |sub| <= |s| && s[i..i + |sub|] == sub
    ensures Contains(s, sub)
  {
    if i > 0 {
      assert s[1..][i - 1..i - 1 + |sub|] == s[i..i + |sub|];
      ContainsAt(s[1..], sub, i - 1);
    }
  }

  /** Text appended after `s` keeps every occurrence that `s` had. */
  lemma {:induction false} ContainsExtend(s: string, sub: string, tail: string)
    requires Contains(s, sub)
    ensures Contains(s + tail, sub)
  {
    if StartsWith(s, sub) {
      assert (s + tail)[..|sub|] == s[..|sub|];
    } else {
      assert (s + tail)[1..] == s[1..] + tail;
      ContainsExtend(s[1..], sub, tail);
    }
  }

  /** A delimiter class for `split(/[...]+/)`. */
  type CharClass = char -> bool

  predicate Free(s: string, delim: CharClass)
  {
    forall k :: 0 <= k < |s| ==> !delim(s[k])
  }

  /** `s.split(/[D]+/).filter(Boolean)`: the maximal runs of characters outside
      `delim`, in order. */
  function SplitRuns(s: string, delim: CharClass): (r: seq<string>)
    ensures forall k :: 0 <= k < |r| ==> r[k] != "" && Free(r[k], delim)
  {
    Runs(s, delim, "")
  }

  /** Scans `s` with `cur` holding the run read so far. */
  function Runs(s: string, delim: CharClass, cur: string): (r: seq<string>)
    requires Free(cur, delim)
    ensures forall k :: 0 <= k < |r| ==> r[k] != "" && Free(r[k], delim)
    decreases |s|
  {
    if s == [] then (if cur == "" then [] else [cur])
    else if delim(s[0]) then (if cur == "" then [] else [cur]) + Runs(s[1..], delim, "")
    else Runs(s[1..], delim, cur + [s[0]])
  }

  function Concat(parts: seq<string>): string
  {
    if parts == [] then "" else parts[0] + Concat(parts[1..])
  }

  lemma {:induction false} ConcatAppend(a: seq<string>, b: seq<string>)
    ensures Concat(a + b) == Concat(a) + Concat(b)
  {
    if a == [] {
      assert a + b == b;
    } else {
      assert (a + b)[1..] == a[1..] + b;
      ConcatAppend(a[1..], b);
    }
  }

  /** `s` with every character of the class removed. */
  function Strip(s: string, delim: CharClass): string
  {
    if s == [] then "" else (if delim(s[0]) then "" else [s[0]]) + Strip(s[1..], delim)
  }

  /** The pieces of `SplitRuns` are exactly the non-delimiter characters of `s`, in order. */
  lemma SplitRunsKeepsText(s: string, delim: CharClass)
    ensures Concat(SplitRuns(s, delim)) == Strip(s, delim)
  {
    RunsKeepText(s, delim, "");
  }

  lemma {:induction false} RunsKeepText(s: string, delim: CharClass, cur: string)
    requires Free(cur, delim)
    ensures Concat(Runs(s, delim, cur)) == cur + Strip(s, delim)
    decreases |s|
  {
    if s == [] {
      assert Strip(s, delim) == "";
      assert cur + "" == cur;
    } else if delim(s[0]) {
      RunsAtDelimiter(s, delim, cur);
      RunsKeepText(s[1..], delim, "");
    } else {
      RunsInsideRun(s, delim, cur);
      RunsKeepText(s[1..], delim, cur + [s[0]]);
    }
  }

  /** One step of `RunsKeepText` at a delimiter: the run so far is closed. */
  lemma RunsAtDelimiter(s: string, delim: CharClass, cur: string)
    requires Free(cur, delim) && s != [] && delim(s[0])
    ensures Concat(Runs(s, delim, cur)) == cur + Concat(Runs(s[1..], delim, ""))
    ensures Strip(s, delim) == Strip(s[1..], delim)
  {
    var head := if cur == "" then [] else [cur];
    var rest := Runs(s[1..], delim, "");
    assert Runs(s, delim, cur) == head + rest;
    assert Concat(head) == cur by {
      if cur != "" {
        assert Concat(head) == cur + Concat([]);
      }
    }
    ConcatAppend(head, rest);
  }

  /** One step of `RunsKeepText` inside a run: the character joins it. */
  lemma RunsInsideRun(s: string, delim: CharClass, cur: string)
    requires Free(cur, delim) && s != [] && !delim(s[0])
    ensures Runs(s, delim, cur) == Runs(s[1..], delim, cur + [s[0]])
    ensures cur + Strip(s, delim) == (cur + [s[0]]) + Strip(s[1..], delim)
  {
    assert Strip(s, delim) == [s[0]] + Strip(s[1..], delim);
  }

  /** `s` is made only of characters of the class. */
  predicate Only(s: string, delim: CharClass)
  {
    forall k :: 0 <= k < |s| ==> delim(s[k])
  }

  /** `gaps[0] + parts[0] + gaps[1] + ... + parts[n-1] + gaps[n]`. */
  function Weave(gaps: seq<string>, parts: seq<string>): string
    requires |gaps| == |parts| + 1
    decreases |parts|
  {
    if parts == [] then gaps[0] else gaps[0] + parts[0] + Weave(gaps[1..], parts[1..])
  }

  /** The stretches around `n` runs: one more than the runs, each made only of
      delimiters, and the inner ones (between two runs) non-empty. */
  predicate Gapped(gaps: seq<string>, n: nat, delim: CharClass)
  {
    |gaps| == n + 1
    && (forall k :: 0 <= k < |gaps| ==> Only(gaps[k], delim))
    && (forall k :: 0 < k < n ==> gaps[k] != "")
  }

  /** The delimiter stretches of `s` around the runs `Runs(s, delim, cur)`. */
  function RunGaps(s: string, delim: CharClass, cur: string): (r: seq<string>)
    requires Free(cur, delim)
    ensures |r| == |Runs(s, delim, cur)| + 1
    decreases |s|
  {
    if s == [] then (if cur == "" then [""] else ["", ""])
    else if delim(s[0]) then
      var g := RunGaps(s[1..], delim, "");
      if cur == "" then [[s[0]] + g[0]] + g[1..] else ["", [s[0]] + g[0]] + g[1..]
    else RunGaps(s[1..], delim, cur + [s[0]])
  }

  /** The delimiter stretches of `s` around the runs `SplitRuns(s, delim)`. */
  function SplitGaps(s: string, delim: CharClass): seq<string>
  {
    RunGaps(s, delim, "")
  }

  /** Putting a longer first stretch in front of a weave. */
  lemma WeavePrepend(x: string, gaps: seq<string>, parts: seq<string>)
    requires |gaps| == |parts| + 1
    ensures Weave([x + gaps[0]] + gaps[1..], parts) == x + Weave(gaps, parts)
  {
    var g := [x + gaps[0]] + gaps[1..];
    assert g[1..] == gaps[1..];
    if parts != [] {
      assert x + gaps[0] + parts[0] + Weave(gaps[1..], parts[1..]) == x + (gaps[0] + parts[0] + Weave(gaps[1..], parts[1..]));
    }
  }

  /** `cur + s` is the runs `Runs(s, delim, cur)` woven with `RunGaps`, and
      a pending run leaves no leading stretch. */
  predicate WovenAt(s: string, delim: CharClass, cur: string)
    requires Free(cur, delim)
  {
    var g := RunGaps(s, delim, cur);
    Gapped(g, |Runs(s, delim, cur)|, delim) && cur + s == Weave(g, Runs(s, delim, cur)) && (cur != "" ==> g[0] == "")
  }

  lemma {:induction false} RunsWoven(s: string, delim: CharClass, cur: string)
    requires Free(cur, delim)
    ensures WovenAt(s, delim, cur)
    decreases |s|
  {
    if s == [] {
      WovenAtEnd(delim, cur);
    } else if delim(s[0]) {
      RunsWoven(s[1..], delim, "");
      WovenAtDelimiter(s, delim, cur);
    } else {
      RunsWoven(s[1..], delim, cur + [s[0]]);
      WovenInsideRun(s, delim, cur);
    }
  }

  lemma WovenAtEnd(delim: CharClass, cur: string)
    requires Free(cur, delim)
    ensures WovenAt("", delim, cur)
  {
    var g := RunGaps("", delim, cur);
    var r := Runs("", delim, cur);
    if cur == "" {
      assert g == [""] && r == [];
    } else {
      assert g == ["", ""] && r == [cur];
      assert Weave(g, r) == "" + cur + Weave([""], []);
    }
  }

  lemma WovenAtDelimiter(s: string, delim: CharClass, cur: string)
    requires Free(cur, delim) && s != [] && delim(s[0])
    requires WovenAt(s[1..], delim, "")
    ensures WovenAt(s, delim, cur)
  {
    var g' := RunGaps(s[1..], delim, "");
    var r' := Runs(s[1..], delim, "");
    var lead := [[s[0]] + g'[0]] + g'[1..];
    WeavePrepend([s[0]], g', r');
    PutBackFirst(s);
    GappedPrepend([s[0]], g', |r'|, delim);
    DelimiterUnfold(s, delim, cur);
    if cur != "" {
      ClosedRun(lead, r', cur, delim);
    }
  }

  lemma PutBackFirst(s: string)
    requires s != []
    ensures [s[0]] + ("" + s[1..]) == s
  {
    assert "" + s[1..] == s[1..];
  }

  /** One step of `Runs` and `RunGaps` at a delimiter. */
  lemma DelimiterUnfold(s: string, delim: CharClass, cur: string)
    requires Free(cur, delim) && s != [] && delim(s[0])
    ensures var g' := RunGaps(s[1..], delim, ""); var lead := [[s[0]] + g'[0]] + g'[1..];
      cur == "" ==> RunGaps(s, delim, cur) == lead && Runs(s, delim, cur) == Runs(s[1..], delim, "")
    ensures var g' := RunGaps(s[1..], delim, ""); var lead := [[s[0]] + g'[0]] + g'[1..];
      cur != "" ==> RunGaps(s, delim, cur) == [""] + lead && Runs(s, delim, cur) == [cur] + Runs(s[1..], delim, "")
  {
    var r' := Runs(s[1..], delim, "");
    assert [] + r' == r';
  }

  /** A longer first stretch is still admissible. */
  lemma GappedPrepend(x: string, gaps: seq<string>, n: nat, delim: CharClass)
    requires Only(x, delim) && Gapped(gaps, n, delim)
    ensures Gapped([x + gaps[0]] + gaps[1..], n, delim)
  {
    var g := [x + gaps[0]] + gaps[1..];
    assert forall k :: 0 < k < |g| ==> g[k] == gaps[k];
  }

  /** A closed run in front of a non-empty first stretch. */
  lemma ClosedRun(lead: seq<string>, parts: seq<string>, cur: string, delim: CharClass)
    requires Gapped(lead, |parts|, delim) && lead[0] != ""
    ensures Gapped([""] + lead, |parts| + 1, delim)
    ensures Weave([""] + lead, [cur] + parts) == cur + Weave(lead, parts)
  {
    ShiftedGaps(lead, |parts|, delim);
    WeaveCons(lead, parts, cur);
  }

  lemma ShiftedGaps(lead: seq<string>, n: nat, delim: CharClass)
    requires Gapped(lead, n, delim) && lead[0] != ""
    ensures Gapped([""] + lead, n + 1, delim)
  {
    var g := [""] + lead;
    assert forall k :: 0 < k < |g| ==> g[k] == lead[k - 1];
  }

  lemma WeaveCons(lead: seq<string>, parts: seq<string>, cur: string)
    requires |lead| == |parts| + 1
    ensures Weave([""] + lead, [cur] + parts) == cur + Weave(lead, parts)
  {
    var g := [""] + lead;
    var r := [cur] + parts;
    assert g[1..] == lead && r[1..] == parts;
    assert Weave(g, r) == "" + cur + Weave(lead, parts);
    EmptyFront(cur, Weave(lead, parts));
  }

  lemma EmptyFront(a: string, b: string)
    ensures "" + a + b == a + b
  {
  }

  lemma WovenInsideRun(s: string, delim: CharClass, cur: string)
    requires Free(cur, delim) && s != [] && !delim(s[0])
    requires Free(cur + [s[0]], delim) && WovenAt(s[1..], delim, cur + [s[0]])
    ensures WovenAt(s, delim, cur)
  {
    var cur' := cur + [s[0]];
    RunsInsideRun(s, delim, cur);
    var g := RunGaps(s[1..], delim, cur');
    var r := Runs(s[1..], delim, cur');
    assert RunGaps(s, delim, cur) == g;
    assert Runs(s, delim, cur) == r;
    MoveFirst(cur, s);
  }

  lemma MoveFirst(cur: string, s: string)
    requires s != []
    ensures cur + s == (cur + [s[0]]) + s[1..]
  {
    assert s == [s[0]] + s[1..];
  }

  /** Reconstruction: `s` is its runs with the delimiter stretches put back,
      every stretch made only of delimiters and every inner one non-empty, so
      `SplitRuns` cuts at every run of delimiters and nowhere else. */
  lemma SplitRunsRebuilds(s: string, delim: CharClass)
    ensures Gapped(SplitGaps(s, delim), |SplitRuns(s, delim)|, delim)
    ensures s == Weave(SplitGaps(s, delim), SplitRuns(s, delim))
  {
    RunsWoven(s, delim, "");
    assert "" + s == s;
  }

  /** The run so far, or nothing when it is empty. */
  function Close(cur: string): seq<string>
  {
    if cur == "" then [] else [cur]
  }

  /** A non-empty stretch of delimiters closes the run so far. */
  lemma {:induction false} RunsSkipDelimiters(g: string, t: string, delim: CharClass, cur: string)
    requires Free(cur, delim) && Only(g, delim) && g != ""
    ensures Runs(g + t, delim, cur) == Close(cur) + Runs(t, delim, "")
    decreases |g|
  {
    assert (g + t)[0] == g[0] && (g + t)[1..] == g[1..] + t;
    assert Runs(g + t, delim, cur) == Close(cur) + Runs(g[1..] + t, delim, "");
    if g[1..] != "" {
      RunsSkipDelimiters(g[1..], t, delim, "");
    } else {
      assert g[1..] + t == t;
    }
  }

  /** A stretch of delimiters at the end leaves only the run so far. */
  lemma RunsOnlyDelimiters(g: string, delim: CharClass, cur: string)
    requires Free(cur, delim) && Only(g, delim)
    ensures Runs(g, delim, cur) == Close(cur)
  {
    if g != "" {
      RunsSkipDelimiters(g, "", delim, cur);
      assert g + "" == g;
    }
  }

  /** Characters outside the class extend the run so far. */
  lemma {:induction false} RunsReadPiece(p: string, t: string, delim: CharClass, cur: string)
    requires Free(cur, delim) && Free(p, delim)
    ensures Runs(p + t, delim, cur) == Runs(t, delim, cur + p)
    decreases |p|
  {
    if p == "" {
      assert p + t == t && cur + p == cur;
    } else {
      assert (p + t)[0] == p[0] && (p + t)[1..] == p[1..] + t;
      RunsReadPiece(p[1..], t, delim, cur + [p[0]]);
      assert cur + [p[0]] + p[1..] == cur + p;
    }
  }

  /** Uniqueness: weaving non-empty separator-free runs with admissible
      stretches and splitting again gives the runs back. */
  lemma {:induction false} WeaveSplitRuns(gaps: seq<string>, parts: seq<string>, delim: CharClass)
    requires Gapped(gaps, |parts|, delim)
    requires forall k :: 0 <= k < |parts| ==> parts[k] != "" && Free(parts[k], delim)
    ensures SplitRuns(Weave(gaps, parts), delim) == parts
    decreases |parts|
  {
    if parts == [] {
      RunsOnlyDelimiters(gaps[0], delim, "");
    } else {
      var w' := Weave(gaps[1..], parts[1..]);
      var w := Weave(gaps, parts);
      assert w == gaps[0] + (parts[0] + w');
      if gaps[0] == "" {
        assert w == parts[0] + w';
      } else {
        RunsSkipDelimiters(gaps[0], parts[0] + w', delim, "");
      }
      RunsReadPiece(parts[0], w', delim, "");
      assert "" + parts[0] == parts[0];
      if parts[1..] == [] {
        RunsOnlyDelimiters(gaps[1], delim, parts[0]);
      } else {
        var w'' := parts[1] + Weave(gaps[2..], parts[2..]);
        assert gaps[1..][1..] == gaps[2..] && parts[1..][1..] == parts[2..];
        assert w' == gaps[1] + w'';
        RunsSkipDelimiters(gaps[1], w'', delim, parts[0]);
        RunsSkipDelimiters(gaps[1], w'', delim, "");
        assert Gapped(gaps[1..], |parts[1..]|, delim) by {
          assert forall k :: 0 < k < |parts[1..]| ==> gaps[1..][k] == gaps[k + 1];
        }
        WeaveSplitRuns(gaps[1..], parts[1..], delim);
        assert [parts[0]] + parts[1..] == parts;
      }
    }
  }

  /** The stretches of `parts.join(sep)`: nothing at either end, `sep` between
      two parts, and `lead` before the first. */
  function JoinGaps(lead: string, n: nat, sep: string): (g: seq<string>)
    ensures |g| == n + 1
  {
    seq(n + 1, k requires 0 <= k <= n => if k == 0 then lead else if k == n then "" else sep)
  }

  lemma {:induction false} JoinWeave(lead: string, parts: seq<string>, sep: string)
    requires |parts| > 0
    ensures Weave(JoinGaps(lead, |parts|, sep), parts) == lead + Join(parts, sep)
    decreases |parts|
  {
    var g := JoinGaps(lead, |parts|, sep);
    if |parts| == 1 {
      assert g == [lead, ""];
      assert Weave(g, parts) == lead + parts[0] + Weave([""], []);
      assert lead + parts[0] + "" == lead + parts[0];
    } else {
      assert g[1..] == JoinGaps(sep, |parts| - 1, sep);
      JoinWeave(sep, parts[1..], sep);
      assert Weave(g, parts) == lead + parts[0] + (sep + Join(parts[1..], sep));
    }
  }

  /** The round trip for runs: `parts.join(c).split(/[D]+/).filter(Boolean) ==
      parts` for non-empty parts free of the class and a separator in it. */
  lemma SplitRunsJoin(parts: seq<string>, c: char, delim: CharClass)
    requires |parts| > 0 && delim(c)
    requires forall k :: 0 <= k < |parts| ==> parts[k] != "" && Free(parts[k], delim)
    ensures SplitRuns(Join(parts, [c]), delim) == parts
  {
    var g := JoinGaps("", |parts|, [c]);
    JoinWeave("", parts, [c]);
    assert "" + Join(parts, [c]) == Join(parts, [c]);
    assert Gapped(g, |parts|, delim) by {
      assert forall k :: 0 <= k < |g| ==> g[k] == "" || g[k] == [c];
    }
    WeaveSplitRuns(g, parts, delim);
  }

  /** `s.split(sep)` for a one-character separator: empty pieces are kept, and
      there is always at least one piece. */
  function SplitOn(s: string, sep: char): (r: seq<string>)
    ensures |r| >= 1
    ensures forall k :: 0 <= k < |r| ==> sep !in r[k]
  {
    Pieces(s, sep, "")
  }

  function Pieces(s: string, sep: char, cur: string): (r: seq<string>)
    requires sep !in cur
    ensures |r| >= 1
    ensures forall k :: 0 <= k < |r| ==> sep !in r[k]
    decreases |s|
  {
    if s == [] then [cur]
    else if s[0] == sep then [cur] + Pieces(s[1..], sep, "")
    else Pieces(s[1..], sep, cur + [s[0]])
  }

  /** `s.replace(/c/g, repl)` for single characters. */
  function ReplaceChar(s: string, c: char, repl: char): (r: string)
    ensures |r| == |s|
    ensures forall k :: 0 <= k < |s| ==> r[k] == if s[k] == c then repl else s[k]
  {
    if s == [] then "" else [if s[0] == c then repl else s[0]] + ReplaceChar(s[1..], c, repl)
  }

  /** Splitting on `sep` and joining with `repl` replaces every `sep` by `repl`;
      with `repl == sep` this is the round trip `s.split(sep).join(sep) == s`. */
  lemma SplitJoin(s: string, sep: char, repl: char)
    ensures Join(SplitOn(s, sep), [repl]) == ReplaceChar(s, sep, repl)
  {
    PiecesJoin(s, sep, repl, "");
  }

  lemma {:induction false} PiecesJoin(s: string, sep: char, repl: char, cur: string)
    requires sep !in cur
    ensures Join(Pieces(s, sep, cur), [repl]) == cur + ReplaceChar(s, sep, repl)
    decreases |s|
  {
    if s == [] {
    } else if s[0] == sep {
      var rest := Pieces(s[1..], sep, "");
      PiecesJoin(s[1..], sep, repl, "");
      JoinCons(cur, rest, [repl]);
      PiecesStep(s, sep, cur);
      ReplaceCharStep(s, sep, repl);
      Regroup(cur, [repl], ReplaceChar(s[1..], sep, repl));
    } else {
      PiecesJoin(s[1..], sep, repl, cur + [s[0]]);
      PiecesStep(s, sep, cur);
      ReplaceCharStep(s, sep, repl);
      Regroup(cur, [s[0]], ReplaceChar(s[1..], sep, repl));
    }
  }

  lemma PiecesStep(s: string, sep: char, cur: string)
    requires sep !in cur && s != []
    ensures s[0] == sep ==> Pieces(s, sep, cur) == [cur] + Pieces(s[1..], sep, "")
    ensures s[0] != sep ==> Pieces(s, sep, cur) == Pieces(s[1..], sep, cur + [s[0]])
  {
  }

  lemma ReplaceCharStep(s: string, c: char, repl: char)
    requires s != []
    ensures ReplaceChar(s, c, repl) == [if s[0] == c then repl else s[0]] + ReplaceChar(s[1..], c, repl)
  {
  }

  lemma Regroup(a: string, b: string, c: string)
    ensures a + b + c == a + (b + c)
  {
  }

  lemma JoinCons(head: string, rest: seq<string>, sep: string)
    requires |rest| >= 1
    ensures Join([head] + rest, sep) == head + sep + Join(rest, sep)
  {
    assert ([head] + rest)[1..] == rest;
  }

  /** A string without the separator splits into itself alone. */
  lemma {:induction false} SplitWithoutSeparator(s: string, sep: char)
    requires sep !in s
    ensures SplitOn(s, sep) == [s]
  {
    PiecesWithoutSeparator(s, sep, "");
    assert "" + s == s;
  }

  lemma {:induction false} PiecesWithoutSeparator(s: string, sep: char, cur: string)
    requires sep !in s && sep !in cur
    ensures Pieces(s, sep, cur) == [cur + s]
    decreases |s|
  {
    if s == [] {
      assert cur + s == cur;
    } else {
      assert s[0] != sep;
      PiecesWithoutSeparator(s[1..], sep, cur + [s[0]]);
      assert cur + [s[0]] + s[1..] == cur + s;
    }
  }
  /** Joining separator-free pieces and splitting again gives the pieces back:
      `parts.join(sep).split(sep) == parts`. */
  /** Three separator-free pieces joined by single separators split back. */
  lemma SplitThree(a: string, b: string, c: string, sep: char)
    requires sep !in a && sep !in b && sep !in c
    ensures SplitOn(a + [sep] + b + [sep] + c, sep) == [a, b, c]
  {
    var parts := [a, b, c];
    JoinTriple(a, b, c, [sep]);
    JoinSplit(parts, sep);
  }

  /** Four separator-free pieces joined by single separators split back. */
  lemma SplitFour(a: string, b: string, c: string, d: string, sep: char)
    requires sep !in a && sep !in b && sep !in c && sep !in d
    ensures SplitOn(a + [sep] + b + [sep] + c + [sep] + d, sep) == [a, b, c, d]
  {
    var parts := [a, b, c, d];
    assert parts[1..] == [b, c, d];
    JoinTriple(b, c, d, [sep]);
    assert Join(parts, [sep]) == a + [sep] + (b + [sep] + c + [sep] + d);
    assert a + [sep] + (b + [sep] + c + [sep] + d) == a + [sep] + b + [sep] + c + [sep] + d;
    assert forall k :: 0 <= k < |parts| ==> sep !in parts[k];
    JoinSplit(parts, sep);
  }

  lemma JoinSplit(parts: seq<string>, sep: char)
    requires |parts| > 0
    requires forall k :: 0 <= k < |parts| ==> sep !in parts[k]
    ensures SplitOn(Join(parts, [sep]), sep) == parts
  {
    JoinPieces(parts, sep, "");
    assert "" + parts[0] == parts[0];
    assert [parts[0]] + parts[1..] == parts;
  }

  lemma {:induction false} JoinPieces(parts: seq<string>, sep: char, cur: string)
    requires |parts| > 0 && sep !in cur
    requires forall k :: 0 <= k < |parts| ==> sep !in parts[k]
    ensures Pieces(Join(parts, [sep]), sep, cur) == [cur + parts[0]] + parts[1..]
    decreases |parts|
  {
    if |parts| == 1 {
      PiecesWithoutSeparator(parts[0], sep, cur);
    } else {
      var rest := Join(parts[1..], [sep]);
      var tail := [sep] + rest;
      assert Join(parts, [sep]) == parts[0] + tail;
      PiecesOver(parts[0], tail, sep, cur);
      assert tail != [] && tail[0] == sep && tail[1..] == rest;
      assert Pieces(tail, sep, cur + parts[0]) == [cur + parts[0]] + Pieces(rest, sep, "");
      JoinPieces(parts[1..], sep, "");
      assert "" + parts[1..][0] == parts[1];
      assert [parts[1]] + parts[1..][1..] == parts[1..];
    }
  }

  /** Scanning a separator-free prefix only extends the current piece. */
  lemma {:induction false} PiecesOver(a: string, b: string, sep: char, cur: string)
    requires sep !in a && sep !in cur
    ensures Pieces(a + b, sep, cur) == Pieces(b, sep, cur + a)
    decreases |a|
  {
    if a == [] {
      assert a + b == b && cur + a == cur;
    } else {
      assert (a + b)[0] == a[0] && (a + b)[1..] == a[1..] + b;
      PiecesOver(a[1..], b, sep, cur + [a[0]]);
      assert cur + [a[0]] + a[1..] == cur + a;
    }
  }


  predicate IsDigit(c: char)
  {
    '0' <= c <= '9'
  }

  /** `/^\d+$/.test(s)`. */
  predicate IsDigits(s: string)
  {
    |s| > 0 && forall k :: 0 <= k < |s| ==> IsDigit(s[k])
  }

  function DigitChar(d: nat): (c: char)
    requires d < 10
    ensures IsDigit(c)
  {
    "0123456789"[d]
  }

  /** The decimal rendering of a non-negative number in a template literal. */
  function NatToString(n: nat): (r: string)
    ensures IsDigits(r)
    decreases n
  {
    if n < 10 then [DigitChar(n)] else NatToString(n / 10) + [DigitChar(n % 10)]
  }
}
