/**
 * What the build task promises, proved about the reference runs of module
 * BuildSpec (and so, through the methods' postconditions, about the build task).
 */
module BuildProperties {
  import opened BuildModel
  import opened BuildLogic
  import opened BuildSpec

  // ---------------------------------------------------------------------------
  // useXPackZipping

  /**
   * useXPackZipping by cases of the run kind: a production run needs the zip
   * packaging, a profiling run needs remote profiling (whatever the packaging).
   */
  lemma UseXPackZippingByRunKind(env: Env)
    ensures UseXPackZipping(env) <==>
      && (if env.toProfile then !env.project.profileLocally else env.project.packaging == Zip)
      && env.jet.since11_3
      && env.project.appType != WindowsService
      && (env.jet.since12_0 || (env.project.slimDown.None? && !env.project.diskFootprintReduction))
  {
  }

  /** The packager never zips a Windows service, and no toolchain before 11.3 does. */
  lemma NoXPackZippingForServicesOrOldToolchains(env: Env)
    ensures env.project.appType == WindowsService ==> !UseXPackZipping(env)
    ensures !env.jet.since11_3 ==> !UseXPackZipping(env)
  {
  }

  /** A local-profiling run never uses packager zipping, even with the zip packaging. */
  lemma NoXPackZippingWhenProfilingLocally(env: Env)
    requires env.toProfile && env.project.profileLocally
    ensures !UseXPackZipping(env)
  {
  }

  /**
   * Before 12.0, a slimmed-down or footprint-reduced build is never zipped by
   * the packager; from 12.0 on, neither setting matters.
   */
  lemma XPackZippingWorkaroundBefore12(env: Env)
    ensures !env.jet.since12_0 && (env.project.slimDown.Some? || env.project.diskFootprintReduction) ==> !UseXPackZipping(env)
    ensures env.jet.since12_0 ==>
      (UseXPackZipping(env) <==>
         ((!env.toProfile && env.project.packaging == Zip) || (env.toProfile && !env.project.profileLocally))
         && env.jet.since11_3 && env.project.appType != WindowsService)
  {
  }

  // ---------------------------------------------------------------------------
  // Profile age

  /**
   * The number of days is the quotient truncated toward zero: never above the
   * exact difference for a newer main artifact, never below it for an older one.
   */
  lemma DaysBetweenTruncates(first: int, second: int)
    ensures var d := DaysBetween(first, second); var diff := second - first;
      && (diff >= 0 ==> 0 <= d * MillisPerDay <= diff < (d + 1) * MillisPerDay)
      && (diff < 0 ==> (d - 1) * MillisPerDay < diff <= d * MillisPerDay <= 0)
  {
  }

  lemma DaysBetweenAntisymmetric(first: int, second: int)
    ensures DaysBetween(second, first) == -DaysBetween(first, second)
  {
  }

  /** A main artifact less than a day older than the profile is 0 days apart, not -1. */
  lemma DaysBetweenWithinADayBefore(first: int, second: int)
    requires first - MillisPerDay < second <= first
    ensures DaysBetween(first, second) == 0
  {
  }

  /** A main artifact `days` whole days and `rest` milliseconds newer is `days` days apart. */
  lemma {:induction false} DaysBetweenWholeDays(first: int, days: nat, rest: int)
    requires 0 <= rest < MillisPerDay
    ensures DaysBetween(first, first + days * MillisPerDay + rest) == days
  {
    var diff := days * MillisPerDay + rest;
    assert diff >= 0;
    var q := diff / MillisPerDay;
    var m := diff % MillisPerDay;
    assert diff == q * MillisPerDay + m && 0 <= m < MillisPerDay;
    QuotientUnique(diff, days, rest, q, m);
  }

  /** Euclidean division by a positive constant has one quotient. */
  lemma QuotientUnique(diff: int, q1: int, r1: int, q2: int, r2: int)
    requires diff == q1 * MillisPerDay + r1 && 0 <= r1 < MillisPerDay
    requires diff == q2 * MillisPerDay + r2 && 0 <= r2 < MillisPerDay
    ensures q1 == q2
  {
    assert (q1 - q2) * MillisPerDay == r2 - r1;
  }

  // ---------------------------------------------------------------------------
  // Profile staleness

  /** The warning about one profile, if it is stale. */
  function Warning(p: Project, profile: ProfileFile, warnKey: string): seq<Event>
  {
    var days := DaysBetween(profile.lastModified, p.mainArtifactModified);
    if profile.present && days >= p.execProfiles.daysToWarn then [Log(Warn, warnKey, [Text(profile.path), Number(days)])] else []
  }

  /** The warnings checkProfilesUpToDate issues. */
  function Warnings(p: Project): seq<Event>
  {
    var profiles := p.execProfiles;
    if profiles.daysToWarn > 0 then
      Warning(p, profiles.startup, TestRunRecollect) + Warning(p, profiles.usg, TestRunRecollect) + Warning(p, profiles.jprofile, PgoRecollect)
    else []
  }

  /**
   * checkProfilesUpToDate appends exactly Warnings: nothing when the threshold
   * is not positive, else the startup, usg and jprofile checks in that order,
   * each warning iff the file exists and is at least the threshold in days old.
   */
  lemma StaleProfileWarningsAppend(p: Project, t: seq<Event>)
    ensures StaleProfileWarnings(p, t) == t + Warnings(p)
  {
    var profiles := p.execProfiles;
    if profiles.daysToWarn > 0 {
      var w1 := Warning(p, profiles.startup, TestRunRecollect);
      var w2 := Warning(p, profiles.usg, TestRunRecollect);
      var w3 := Warning(p, profiles.jprofile, PgoRecollect);
      assert ProfileCheck(p, t, profiles.startup, TestRunRecollect) == t + w1;
      assert ProfileCheck(p, t + w1, profiles.usg, TestRunRecollect) == t + w1 + w2;
      assert ProfileCheck(p, t + w1 + w2, profiles.jprofile, PgoRecollect) == t + w1 + w2 + w3;
      assert t + w1 + w2 + w3 == t + (w1 + w2 + w3);
    } else {
      assert t + [] == t;
    }
  }

  /** A stale-profile warning. */
  predicate IsStaleWarning(e: Event)
  {
    e.Log? && e.level == Warn && (e.key == TestRunRecollect || e.key == PgoRecollect)
  }

  lemma WarningsAreStaleWarnings(p: Project)
    ensures |Warnings(p)| <= 3
    ensures forall i :: 0 <= i < |Warnings(p)| ==> IsStaleWarning(Warnings(p)[i])
    ensures p.execProfiles.daysToWarn <= 0 ==> Warnings(p) == []
  {
  }

  /** A profile `days` whole days older than the main artifact is reported iff `days` reaches the threshold. */
  lemma {:induction false} StaleProfileScenario(p: Project, profile: ProfileFile, warnKey: string, days: nat, rest: int)
    requires profile.present && 0 <= rest < MillisPerDay
    requires p.mainArtifactModified == profile.lastModified + days * MillisPerDay + rest
    ensures Warning(p, profile, warnKey) != [] <==> days >= p.execProfiles.daysToWarn
    ensures Warning(p, profile, warnKey) != [] ==> Warning(p, profile, warnKey) == [Log(Warn, warnKey, [Text(profile.path), Number(days)])]
  {
    DaysBetweenWholeDays(profile.lastModified, days, rest);
  }

  // ---------------------------------------------------------------------------
  // Info.plist

  /** The Info.plist text is the property list of exactly the intended entries. */
  lemma InfoPlistRendersEntries(outputName: string, b: OsxBundle)
    ensures InfoPlist(outputName, b) == RenderPlist(PlistEntries(outputName, b))
  {
    var rest := BundleInfoParts(outputName, b) + IconParts(b) + HighResolutionParts(b) + PlistFooter;
    SeqAssoc4(PlistHeader + ["  <key>CFBundlePackageType</key>\n", "  <string>APPL</string>\n"],
              BundleInfoParts(outputName, b), IconParts(b), HighResolutionParts(b), PlistFooter);
    RenderedParts(outputName, b);
    assert "  <string>APPL</string>\n" == "  <string>" + ("APPL" + ("</string>\n" + ""));
    SplitFragment(PlistHeader, "  <key>CFBundlePackageType</key>\n", "  <string>APPL</string>\n",
                  "  <string>", "APPL", "</string>\n", rest);
  }

  /** The fragments RenderPlist concatenates for the intended entries. */
  lemma RenderedParts(outputName: string, b: OsxBundle)
    ensures PlistHeader + EntriesParts(PlistEntries(outputName, b)) + PlistFooter ==
      PlistHeader + [KeyLine(CFBundlePackageType), "  <string>", "APPL", "</string>\n"] +
      (BundleInfoParts(outputName, b) + IconParts(b) + HighResolutionParts(b) + PlistFooter)
  {
    var fixed := FixedEntries(outputName, b);
    var icon := IconEntries(b);
    var hiRes := HighResolutionEntries(b);
    EntriesPartsAppend(fixed + icon, hiRes);
    EntriesPartsAppend(fixed, icon);
    FixedEntriesText(outputName, b);
    OptionalEntriesText(b);
    var packageType := [KeyLine(CFBundlePackageType), "  <string>", "APPL", "</string>\n"];
    SeqAssoc4(PlistHeader + packageType, BundleInfoParts(outputName, b), IconParts(b), HighResolutionParts(b), PlistFooter);
  }

  lemma FixedEntriesText(outputName: string, b: OsxBundle)
    ensures EntriesParts(FixedEntries(outputName, b)) ==
      [KeyLine(CFBundlePackageType), "  <string>", "APPL", "</string>\n"] + BundleInfoParts(outputName, b)
  {
    var e := FixedEntries(outputName, b);
    FixedEntriesParts(e, b, outputName);
  }

  lemma OptionalEntriesText(b: OsxBundle)
    ensures EntriesParts(IconEntries(b)) == IconParts(b)
    ensures EntriesParts(HighResolutionEntries(b)) == HighResolutionParts(b)
  {
    if b.icon.Some? {
      EntriesPartsCons(PlistEntry(CFBundleIconFile, PlistString(b.icon.value.name)), []);
    }
    if b.highResolutionCapable {
      EntriesPartsCons(PlistEntry(NSHighResolutionCapable, PlistTrue), []);
    }
  }

  lemma SeqAssoc4(h: seq<string>, a: seq<string>, b: seq<string>, c: seq<string>, d: seq<string>)
    ensures h + a + b + c + d == h + (a + b + c + d)
  {
  }

  /** Splitting one fragment into three that spell it leaves the text unchanged. */
  lemma SplitFragment(header: seq<string>, k: string, l: string, x: string, y: string, z: string, rest: seq<string>)
    requires l == x + (y + (z + ""))
    ensures Concat(header + [k, l] + rest) == Concat(header + [k, x, y, z] + rest)
  {
    ConcatAppend(header + [k, l], rest);
    ConcatAppend(header + [k, x, y, z], rest);
    ConcatAppend(header, [k, l]);
    ConcatAppend(header, [k, x, y, z]);
    assert [k, l][1..] == [l];
    assert [k, x, y, z][1..] == [x, y, z] && [x, y, z][1..] == [y, z] && [y, z][1..] == [z];
    assert Concat([z]) == z + Concat([]);
    assert Concat([y, z]) == y + Concat([z]);
    assert Concat([x, y, z]) == x + Concat([y, z]);
    assert Concat([k, x, y, z]) == k + Concat([x, y, z]);
    assert Concat([l]) == l + Concat([]);
    assert Concat([k, l]) == k + Concat([l]);
  }

  /** The text fragments of the six entries every Info.plist holds. */
  lemma FixedEntriesParts(fixed: seq<PlistEntry>, b: OsxBundle, outputName: string)
    requires fixed == [ PlistEntry(CFBundlePackageType, PlistString("APPL")),
                        PlistEntry(CFBundleExecutable, PlistString(outputName)),
                        PlistEntry(CFBundleName, PlistString(b.bundleName)),
                        PlistEntry(CFBundleIdentifier, PlistString(b.identifier)),
                        PlistEntry(CFBundleVersionString, PlistString(b.version)),
                        PlistEntry(CFBundleShortVersionString, PlistString(b.shortVersion)) ]
    ensures EntriesParts(fixed) ==
      EntryParts(fixed[0]) + EntryParts(fixed[1]) + EntryParts(fixed[2]) +
      EntryParts(fixed[3]) + EntryParts(fixed[4]) + EntryParts(fixed[5])
  {
    var e := fixed;
    assert e == [e[0]] + ([e[1]] + ([e[2]] + ([e[3]] + ([e[4]] + ([e[5]] + []))))); 
    EntriesPartsCons(e[5], []);
    EntriesPartsCons(e[4], [e[5]] + []);
    EntriesPartsCons(e[3], [e[4]] + ([e[5]] + []));
    EntriesPartsCons(e[2], [e[3]] + ([e[4]] + ([e[5]] + [])));
    EntriesPartsCons(e[1], [e[2]] + ([e[3]] + ([e[4]] + ([e[5]] + []))));
    EntriesPartsCons(e[0], [e[1]] + ([e[2]] + ([e[3]] + ([e[4]] + ([e[5]] + [])))));
  }

  lemma EntriesPartsCons(e: PlistEntry, rest: seq<PlistEntry>)
    ensures EntriesParts([e] + rest) == EntryParts(e) + EntriesParts(rest)
  {
    assert ([e] + rest)[1..] == rest;
  }

  lemma {:induction false} EntriesPartsAppend(a: seq<PlistEntry>, b: seq<PlistEntry>)
    ensures EntriesParts(a + b) == EntriesParts(a) + EntriesParts(b)
    decreases |a|
  {
    if a == [] {
      assert a + b == b;
    } else {
      assert (a + b)[1..] == a[1..] + b;
      EntriesPartsAppend(a[1..], b);
    }
  }

  lemma {:induction false} ConcatAppend(a: seq<string>, b: seq<string>)
    ensures Concat(a + b) == Concat(a) + Concat(b)
    decreases |a|
  {
    if a == [] {
      assert a + b == b;
    } else {
      assert (a + b)[1..] == a[1..] + b;
      ConcatAppend(a[1..], b);
    }
  }

  /** Info.plist names an icon file iff the bundle has an icon, and the file it names is the icon's. */
  lemma InfoPlistIconKey(outputName: string, b: OsxBundle)
    ensures CFBundleIconFile in PlistKeys(PlistEntries(outputName, b)) <==> b.icon.Some?
    ensures b.icon.Some? ==> PlistEntry(CFBundleIconFile, PlistString(b.icon.value.name)) in PlistEntries(outputName, b)
  {
    var entries := PlistEntries(outputName, b);
    var keys := PlistKeys(entries);
    if b.icon.Some? {
      assert entries[6] == PlistEntry(CFBundleIconFile, PlistString(b.icon.value.name));
      assert keys[6] == CFBundleIconFile;
    }
  }

  /** Info.plist declares high-resolution support iff the bundle is configured so. */
  lemma InfoPlistHighResolutionKey(outputName: string, b: OsxBundle)
    ensures NSHighResolutionCapable in PlistKeys(PlistEntries(outputName, b)) <==> b.highResolutionCapable
  {
    var keys := PlistKeys(PlistEntries(outputName, b));
    if b.highResolutionCapable {
      assert keys[|keys| - 1] == NSHighResolutionCapable;
    }
  }
}
