/** The navigation routes of navigation/Routes.kt. */
module Routes {
  import opened Decimal

  const BottomNav: string := "BottomNav"
  const Jobs: string := "Jobs"
  const Bookmarks: string := "Bookmarks"
  /** The detail route template; the navigation library fills `{jobId}`. */
  const JobDetail: string := "JobDetail/{jobId}"

  const JobDetailPrefix: string := "JobDetail/"
  const JobIdPlaceholder: string := "{jobId}"

  /** The four route strings name four different destinations. */
  lemma RoutesDistinct()
    ensures |{BottomNav, Jobs, Bookmarks, JobDetail}| == 4
  {
  }

  /** `JobDetail.createRoute(jobId)`: `"JobDetail/$jobId"`. */
  function CreateRoute(jobId: int): (r: string)
    ensures |r| > |JobDetailPrefix| && r[..|JobDetailPrefix|] == JobDetailPrefix
  {
    JobDetailPrefix + IntToString(jobId)
  }

  /** `s` with its first occurrence of `pat` replaced by `rep`. */
  function ReplaceFirst(s: string, pat: string, rep: string): string
    requires |pat| > 0
  {
    if |s| < |pat| then s
    else if s[..|pat|] == pat then rep + s[|pat|..]
    else [s[0]] + ReplaceFirst(s[1..], pat, rep)
  }

  /** A string that starts with the pattern has its head replaced. */
  lemma ReplaceFirstAtHead(pat: string, q: string, rep: string)
    requires |pat| > 0
    ensures ReplaceFirst(pat + q, pat, rep) == rep + q
  {
    var s := pat + q;
    assert s[..|pat|] == pat;
    assert s[|pat|..] == q;
  }

  /** A string whose first character cannot start the pattern keeps that character. */
  lemma ReplaceFirstSkip(s: string, pat: string, rep: string)
    requires |pat| > 0 && |s| >= |pat| && s[0] != pat[0]
    ensures ReplaceFirst(s, pat, rep) == [s[0]] + ReplaceFirst(s[1..], pat, rep)
  {
    assert s[..|pat|][0] == s[0];
  }

  /** A pattern that starts with a character absent from `p` is first found right after `p`. */
  lemma {:induction false} ReplaceFirstAfter(p: string, pat: string, q: string, rep: string)
    requires |pat| > 0 && pat[0] !in p
    ensures ReplaceFirst(p + pat + q, pat, rep) == p + rep + q
  {
    if p == [] {
      assert p + pat + q == pat + q;
      ReplaceFirstAtHead(pat, q, rep);
    } else {
      var s := p + pat + q;
      assert s[0] == p[0];
      ReplaceFirstSkip(s, pat, rep);
      assert s[1..] == p[1..] + pat + q;
      ReplaceFirstAfter(p[1..], pat, q, rep);
      assert [p[0]] + (p[1..] + rep + q) == p + rep + q;
    }
  }

  /** `createRoute` fills the `{jobId}` placeholder of the template. */
  lemma CreateRouteFillsTemplate(jobId: int)
    ensures CreateRoute(jobId) == ReplaceFirst(JobDetail, JobIdPlaceholder, IntToString(jobId))
  {
    assert JobDetail == JobDetailPrefix + JobIdPlaceholder + [];
    ReplaceFirstAfter(JobDetailPrefix, JobIdPlaceholder, [], IntToString(jobId));
  }

  /** Distinct ids give distinct routes, and no route equals a fixed one. */
  lemma CreateRouteInjective(a: int, b: int)
    ensures CreateRoute(a) == CreateRoute(b) <==> a == b
    ensures CreateRoute(a) !in {BottomNav, Jobs, Bookmarks, JobDetail}
  {
    var pa, pb := IntToString(a), IntToString(b);
    if CreateRoute(a) == CreateRoute(b) {
      assert pa == CreateRoute(a)[|JobDetailPrefix|..];
      assert pb == CreateRoute(b)[|JobDetailPrefix|..];
      IntToStringInjective(a, b);
    }
    var r := CreateRoute(a);
    assert r[1] == 'o' && r[2] == 'b' && |r| > 10;
    assert r[10] == pa[0] && (pa[0] == '-' || IsDigit(pa[0]));
    assert JobDetail[10] == '{';
  }
}
