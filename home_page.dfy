/**
 * The second home page: the button that opens the apps list (or defers that
 * until the home screen has finished updating its apps), and the "abstract
 * opener" buttons (internet, maps) that query the package manager for the
 * activities able to view a URI, keep one activity per package, and then open
 * a drop-down of them, launch the single one, or show an error.
 *
 * The package manager's query result is a parameter, and so is the set of
 * packages that have a launcher activity (getLaunchIntentForPackage returns
 * null for the others); launching an activity is recorded in the home
 * screen's ghost log of started activities.
 */
module HomePage {

  /** The part of a ResolveInfo the page uses. */
  datatype ResolveInfo = ResolveInfo(packageName: string, appLabel: string)

  /** The packages named by a list of activities. */
  function Packages(s: seq<ResolveInfo>): set<string> {
    set i | 0 <= i < |s| :: s[i].packageName
  }

  /** No two entries share a package. */
  predicate DistinctPackages(s: seq<ResolveInfo>) {
    forall i, j :: 0 <= i < j < |s| ==> s[i].packageName != s[j].packageName
  }

  /** Entry i is the first one of its package. */
  predicate FirstOfItsPackage(s: seq<ResolveInfo>, i: int)
    requires 0 <= i < |s|
  {
    forall j :: 0 <= j < i ==> s[j].packageName != s[i].packageName
  }

  /** The list with every entry dropped whose package appeared earlier (specification of the duplicate removal). */
  function FirstPerPackage(s: seq<ResolveInfo>): seq<ResolveInfo>
    decreases |s|
  {
    if s == [] then []
    else
      var previous := FirstPerPackage(s[..|s| - 1]);
      if s[|s| - 1].packageName in Packages(s[..|s| - 1]) then previous else previous + [s[|s| - 1]]
  }

  lemma PackagesAppend(s: seq<ResolveInfo>, x: ResolveInfo)
    ensures Packages(s + [x]) == Packages(s) + {x.packageName}
  {
    var t := s + [x];
    assert t[|s|] == x;
    forall p | p in Packages(s)
      ensures p in Packages(t)
    {
      var i :| 0 <= i < |s| && s[i].packageName == p;
      assert t[i] == s[i];
    }
  }

  /** Removing duplicates keeps every package. */
  lemma {:induction false} FirstPerPackageKeepsPackages(s: seq<ResolveInfo>)
    ensures Packages(FirstPerPackage(s)) == Packages(s)
    decreases |s|
  {
    if s != [] {
      var prefix, last := s[..|s| - 1], s[|s| - 1];
      assert s == prefix + [last];
      FirstPerPackageKeepsPackages(prefix);
      PackagesAppend(prefix, last);
      if last.packageName !in Packages(prefix) {
        PackagesAppend(FirstPerPackage(prefix), last);
      }
    }
  }

  /** Removing duplicates leaves no package twice. */
  lemma {:induction false} FirstPerPackageDistinct(s: seq<ResolveInfo>)
    ensures DistinctPackages(FirstPerPackage(s))
    decreases |s|
  {
    if s != [] {
      var prefix, last := s[..|s| - 1], s[|s| - 1];
      FirstPerPackageDistinct(prefix);
      FirstPerPackageKeepsPackages(prefix);
      var previous := FirstPerPackage(prefix);
      if last.packageName !in Packages(prefix) {
        var r := previous + [last];
        forall i, j | 0 <= i < j < |r|
          ensures r[i].packageName != r[j].packageName
        {
          if j == |previous| {
            assert r[i] == previous[i];
            assert previous[i].packageName in Packages(previous);
          }
        }
      }
    }
  }

  lemma {:induction false} DistinctPackagesCount(s: seq<ResolveInfo>)
    requires DistinctPackages(s)
    ensures |Packages(s)| == |s|
    decreases |s|
  {
    if s != [] {
      var prefix, last := s[..|s| - 1], s[|s| - 1];
      assert s == prefix + [last];
      DistinctPackagesCount(prefix);
      PackagesAppend(prefix, last);
      forall i | 0 <= i < |prefix|
        ensures prefix[i].packageName != last.packageName
      {
        assert prefix[i] == s[i];
      }
    }
  }

  /** One entry survives per distinct package. */
  lemma FirstPerPackageSize(s: seq<ResolveInfo>)
    ensures |FirstPerPackage(s)| == |Packages(s)|
  {
    FirstPerPackageDistinct(s);
    FirstPerPackageKeepsPackages(s);
    DistinctPackagesCount(FirstPerPackage(s));
  }

  /**
   * The surviving entries are exactly the first entries of their packages, in
   * their original order: idx lists the positions they came from.
   */
  lemma {:induction false} FirstPerPackagePositions(s: seq<ResolveInfo>) returns (idx: seq<nat>)
    ensures |idx| == |FirstPerPackage(s)|
    ensures forall k :: 0 <= k < |idx| ==> idx[k] < |s| && s[idx[k]] == FirstPerPackage(s)[k] && FirstOfItsPackage(s, idx[k])
    ensures forall k, l :: 0 <= k < l < |idx| ==> idx[k] < idx[l]
    ensures forall i :: 0 <= i < |s| && FirstOfItsPackage(s, i) ==> i in idx
    decreases |s|
  {
    if s == [] {
      idx := [];
    } else {
      var prefix, last := s[..|s| - 1], s[|s| - 1];
      var previous := FirstPerPackagePositions(prefix);
      forall k | 0 <= k < |previous|
        ensures FirstOfItsPackage(s, previous[k])
      {
        assert FirstOfItsPackage(prefix, previous[k]);
      }
      if last.packageName in Packages(prefix) {
        idx := previous;
        var j :| 0 <= j < |prefix| && prefix[j].packageName == last.packageName;
        assert s[j].packageName == s[|s| - 1].packageName;
        assert !FirstOfItsPackage(s, |s| - 1);
        forall i | 0 <= i < |s| && FirstOfItsPackage(s, i)
          ensures i in idx
        {
          if i < |s| - 1 {
            assert FirstOfItsPackage(prefix, i);
          }
        }
      } else {
        idx := previous + [|s| - 1];
        assert FirstOfItsPackage(s, |s| - 1) by {
          forall j | 0 <= j < |s| - 1
            ensures s[j].packageName != last.packageName
          {
            assert prefix[j] == s[j];
          }
        }
        forall i | 0 <= i < |s| && FirstOfItsPackage(s, i)
          ensures i in idx
        {
          if i < |s| - 1 {
            assert FirstOfItsPackage(prefix, i);
          }
        }
      }
    }
  }

  /** What clicking an opener button does. */
  datatype Opener =
    | DropDown(entries: seq<ResolveInfo>)  // a drop-down whose size() is |entries|
    | Launch(packageName: string)         // start the package's launch intent
    | ShowError                            // "no app was found" toast

  /** The click listener chosen for a de-duplicated activity list. */
  function OpenerFor(resolveInfos: seq<ResolveInfo>): Opener {
    if |resolveInfos| > 1 then DropDown(resolveInfos)
    else if |resolveInfos| == 1 then Launch(resolveInfos[0].packageName)
    else ShowError
  }

  /**
   * The opener depends only on the packages found: an error when none, a
   * direct launch when one (of that package), a drop-down of one entry per
   * package when several.
   */
  lemma OpenerByPackages(s: seq<ResolveInfo>)
    ensures OpenerFor(FirstPerPackage(s)).ShowError? <==> Packages(s) == {}
    ensures OpenerFor(FirstPerPackage(s)).ShowError? <==> s == []
    ensures OpenerFor(FirstPerPackage(s)).Launch? <==> |Packages(s)| == 1
    ensures OpenerFor(FirstPerPackage(s)).Launch? ==> Packages(s) == {OpenerFor(FirstPerPackage(s)).packageName}
    ensures OpenerFor(FirstPerPackage(s)).DropDown? <==> |Packages(s)| > 1
    ensures OpenerFor(FirstPerPackage(s)).DropDown? ==>
              |OpenerFor(FirstPerPackage(s)).entries| == |Packages(s)| &&
              DistinctPackages(OpenerFor(FirstPerPackage(s)).entries)
  {
    FirstPerPackageSize(s);
    FirstPerPackageKeepsPackages(s);
    FirstPerPackageDistinct(s);
    var r := FirstPerPackage(s);
    if s != [] {
      assert s[0].packageName in Packages(s);
    }
    if |r| == 1 {
      assert r[0].packageName in Packages(r);
      assert Packages(r) == {r[0].packageName};
    }
  }

  /**
   * clickListenerForAbstractOpener: drop repeated packages from the query
   * result, keeping the first activity of each, and choose the button's listener.
   */
  method ClickListenerForAbstractOpener(activitiesWithDuplicates: seq<ResolveInfo>) returns (opener: Opener)
    ensures opener == OpenerFor(FirstPerPackage(activitiesWithDuplicates))
  {
    var resolveInfos: seq<ResolveInfo> := [];
    var seenPackages: set<string> := {};
    for i := 0 to |activitiesWithDuplicates|
      invariant resolveInfos == FirstPerPackage(activitiesWithDuplicates[..i])
      invariant seenPackages == Packages(activitiesWithDuplicates[..i])
    {
      var resolveInfo := activitiesWithDuplicates[i];
      var prefix := activitiesWithDuplicates[..i + 1];
      assert prefix[..i] == activitiesWithDuplicates[..i];
      PackagesAppend(activitiesWithDuplicates[..i], resolveInfo);
      assert prefix == activitiesWithDuplicates[..i] + [resolveInfo];
      if resolveInfo.packageName !in seenPackages {
        seenPackages := seenPackages + {resolveInfo.packageName};
        resolveInfos := resolveInfos + [resolveInfo];
      }
    }
    assert activitiesWithDuplicates[..|activitiesWithDuplicates|] == activitiesWithDuplicates;
    if |resolveInfos| > 1 {
      opener := DropDown(resolveInfos);
    } else if |resolveInfos| == 1 {
      opener := Launch(resolveInfos[0].packageName);
    } else {
      opener := ShowError;
    }
  }

  /** An activity the home screen starts. */
  datatype Started = AppsActivity | LaunchIntentFor(packageName: string)

  /** The part of the home screen activity the page touches. */
  class HomeScreen {
    var finishedUpdatingApps: bool
    var launchAppsActivity: bool
    ghost var started: seq<Started>

    constructor (finishedUpdatingApps: bool)
      ensures this.finishedUpdatingApps == finishedUpdatingApps
      ensures !launchAppsActivity && started == []
    {
      this.finishedUpdatingApps := finishedUpdatingApps;
      launchAppsActivity := false;
      started := [];
    }

    /** The apps button: open the apps list now, or ask for it once the apps are updated. */
    method OnAppsButtonClick()
      modifies this`launchAppsActivity, this`started
      ensures !finishedUpdatingApps ==> launchAppsActivity && started == old(started)
      ensures finishedUpdatingApps ==>
                launchAppsActivity == old(launchAppsActivity) && started == old(started) + [AppsActivity]
    {
      if !finishedUpdatingApps {
        launchAppsActivity := true;
      } else {
        started := started + [AppsActivity];
      }
    }

    /**
     * A click on an opener button; the drop-down and the error toast start
     * nothing.  A launch passes getLaunchIntentForPackage straight to
     * startActivity: for a package without a launcher activity (not in
     * `launchable`) the intent is null and startActivity throws
     * NullPointerException, reported as `crashed` with nothing started.
     */
    method OnOpenerClick(opener: Opener, launchable: set<string>) returns (crashed: bool)
      modifies this`started
      ensures crashed <==> opener.Launch? && opener.packageName !in launchable
      ensures opener.Launch? && !crashed ==> started == old(started) + [LaunchIntentFor(opener.packageName)]
      ensures !opener.Launch? || crashed ==> started == old(started)
    {
      crashed := false;
      if opener.Launch? {
        crashed := StartLaunchIntent(opener.packageName, launchable);
      }
    }

    /**
     * A click on the drop-down item at a position launches that entry's
     * package, with the same NullPointerException when it has no launcher
     * activity (the popup is then not dismissed).
     */
    method OnDropDownItemClick(opener: Opener, position: nat, launchable: set<string>) returns (crashed: bool)
      requires opener.DropDown? && position < |opener.entries|
      modifies this`started
      ensures crashed <==> opener.entries[position].packageName !in launchable
      ensures !crashed ==> started == old(started) + [LaunchIntentFor(opener.entries[position].packageName)]
      ensures crashed ==> started == old(started)
    {
      crashed := StartLaunchIntent(opener.entries[position].packageName, launchable);
    }

    /** homeScreen.startActivity(packageManager.getLaunchIntentForPackage(packageName)). */
    method StartLaunchIntent(packageName: string, launchable: set<string>) returns (crashed: bool)
      modifies this`started
      ensures crashed <==> packageName !in launchable
      ensures !crashed ==> started == old(started) + [LaunchIntentFor(packageName)]
      ensures crashed ==> started == old(started)
    {
      if packageName !in launchable {
        return true;
      }
      started := started + [LaunchIntentFor(packageName)];
      return false;
    }
  }

  /** Two browsers, one of them listed twice, give a two-entry drop-down. */
  method OpenerScenario()
  {
    var chrome1 := ResolveInfo("com.android.chrome", "Chrome");
    var chrome2 := ResolveInfo("com.android.chrome", "Chrome Beta");
    var firefox := ResolveInfo("org.mozilla.firefox", "Firefox");
    var opener := ClickListenerForAbstractOpener([chrome1, firefox, chrome2]);
    assert [chrome1, firefox, chrome2][..2] == [chrome1, firefox];
    assert [chrome1, firefox, chrome2][..1] == [chrome1];
    assert [chrome1][..0] == [];
    PackagesAppend([], chrome1);
    assert [] + [chrome1] == [chrome1];
    assert Packages([chrome1]) == {chrome1.packageName};
    assert FirstPerPackage([chrome1]) == [chrome1];
    assert FirstPerPackage([chrome1, firefox]) == [chrome1, firefox];
    assert [chrome1, firefox][0].packageName == chrome2.packageName;
    assert chrome2.packageName in Packages([chrome1, firefox]);
    assert opener == DropDown([chrome1, firefox]);
  }
}
