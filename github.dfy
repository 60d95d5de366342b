/**
 * Listing the GitHub organisations of a repository's remotes
 * (pipeline/gcb/github.go, `parseRemotes`): the output of
 * `git config --get-regexp remote.*.url` is read line by line, and the
 * organisation is taken from every line that has a colon. Running git is
 * not part of this model: its output is the input.
 */
module GitHub {
  import opened Errors
  import opened Strs
  import Seqs

  /** The organisation of one line, or nothing when the line has no colon. */
  function OrgOf(line: string): (r: Option<string>)
  {
    var split := Split(line, ':');
    if |split| == 1 then None else Some(Split(split[1], '/')[0])
  }

  /** The organisations of the lines, in order. */
  function OrgsOf(lines: seq<string>): (r: seq<string>)
    ensures |r| <= |lines|
  {
    if |lines| == 0 then []
    else
      var front := OrgsOf(lines[..|lines| - 1]);
      match OrgOf(lines[|lines| - 1])
      case None => front
      case Some(org) => front + [org]
  }

  /** `parseRemotes`: the organisation of each line of the output that has one, in line order. */
  function ParseRemotes(data: string): (r: seq<string>)
    ensures |r| <= |Split(data, '\n')|
  {
    OrgsOf(Split(data, '\n'))
  }

  /** The first piece of a split is the text up to the first separator, or all of it. */
  lemma {:induction false} FirstPiece(s: string, sep: char)
    ensures var p := Split(s, sep)[0];
      HasPrefix(s, p) && sep !in p && (|p| == |s| || s[|p|] == sep)
    decreases |s|
  {
    if |s| > 0 && s[0] != sep {
      FirstPiece(s[1..], sep);
      var q := Split(s[1..], sep)[0];
      assert Split(s, sep)[0] == [s[0]] + q;
      assert s[..|q| + 1] == [s[0]] + s[1..][..|q|];
    }
  }

  /** A line is skipped exactly when it has no colon. */
  lemma SkippedIffNoColon(line: string)
    ensures OrgOf(line).None? <==> ':' !in line
  {
    if ':' in line {
      var i := IndexOf(line, ':').value;
      SplitAtFirst(line, ':', i);
    } else {
      SplitWithoutSeparator(line, ':');
    }
  }

  /**
   * The organisation is the text after the first colon, up to the next
   * colon or slash or the end of the line.
   */
  lemma OrgShape(line: string, i: nat)
    requires i < |line| && line[i] == ':' && ':' !in line[..i]
    ensures OrgOf(line).Some?
    ensures var o, t := OrgOf(line).value, line[i + 1..];
      && HasPrefix(t, o) && ':' !in o && '/' !in o
      && (|o| == |t| || t[|o|] == ':' || t[|o|] == '/')
  {
    var t := line[i + 1..];
    SplitAtFirst(line, ':', i);
    assert Split(line, ':')[1] == Split(t, ':')[0];
    var seg := Split(t, ':')[0];
    FirstPiece(t, ':');
    FirstPiece(seg, '/');
    var o := Split(seg, '/')[0];
    assert OrgOf(line) == Some(o);
    assert t[..|o|] == seg[..|o|];
    if |o| < |t| && |o| == |seg| {
      assert t[|o|] == ':';
    } else if |o| < |seg| {
      assert t[|o|] == seg[|o|];
    }
  }

  /** A remote of the form `<prefix>:<org>/<repo>` names the organisation `org`. */
  lemma RemoteOrg(prefix: string, org: string, repo: string)
    requires ':' !in prefix && ':' !in org && '/' !in org
    ensures OrgOf(prefix + ":" + org + "/" + repo) == Some(org)
  {
    var line := prefix + ":" + org + "/" + repo;
    assert line[..|prefix|] == prefix && line[|prefix|] == ':';
    OrgShape(line, |prefix|);
    var o := OrgOf(line).value;
    var t := line[|prefix| + 1..];
    assert t == org + "/" + repo;
    assert t[|org|] == '/';
    assert forall k :: 0 <= k < |org| ==> t[k] == org[k];
    assert |o| == |org|;
    assert forall k :: 0 <= k < |o| ==> o[k] == t[k] == org[k];
    assert o == org;
  }

  /** The output line of an `origin` remote on GitHub reached over ssh names the owner `priyawadhwa`. */
  lemma SampleRemote()
    ensures OrgOf("remote.origin.url git@github.com" + ":" + "priyawadhwa" + "/" + "runtimes-common.git") == Some("priyawadhwa")
  {
    RemoteOrg("remote.origin.url git@github.com", "priyawadhwa", "runtimes-common.git");
  }

  /** Lines are taken one at a time: the organisations of two runs of lines are those of each, in order. */
  lemma {:induction false} OrgsOfAppend(a: seq<string>, b: seq<string>)
    ensures OrgsOf(a + b) == OrgsOf(a) + OrgsOf(b)
    decreases |b|
  {
    if |b| == 0 {
      assert a + b == a;
    } else {
      var b' := b[..|b| - 1];
      assert (a + b)[..|a + b| - 1] == a + b';
      assert (a + b)[|a + b| - 1] == b[|b| - 1];
      OrgsOfAppend(a, b');
    }
  }

  /** Each organisation comes from a line with a colon, and every line with a colon gives one. */
  lemma {:induction false} OrgsOfCount(lines: seq<string>)
    ensures |OrgsOf(lines)| == |Seqs.Filter(lines, (l: string) => ':' in l)|
    decreases |lines|
  {
    if |lines| > 0 {
      OrgsOfCount(lines[..|lines| - 1]);
      SkippedIffNoColon(lines[|lines| - 1]);
    }
  }

  /** Empty output names no organisation. */
  lemma EmptyOutput()
    ensures ParseRemotes("") == []
  {
    assert Split("", '\n') == [""];
    SkippedIffNoColon("");
    assert [""][..0] == [];
  }
}
