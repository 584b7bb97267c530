/**
 * The build-number bump (config/incrementBuild.js): raises the build number by one and
 * rewrites the manifest and package versions as the first three `.`-separated
 * components of the manifest version followed by the new build number.
 *
 * The three JSON files are the fields of a `BuildFiles` object; reading and writing
 * them is not part of this model.
 */
module Build {
  import opened Wrappers
  import opened Text

  /** `version.split('.').slice(0, 3)`: the first three components, or all when there are fewer. */
  function Kept(version: string): (parts: seq<string>)
    ensures |parts| == if |Split(version, '.')| <= 3 then |Split(version, '.')| else 3
    ensures parts <= Split(version, '.')
    ensures |Split(version, '.')| <= 3 ==> parts == Split(version, '.')
  {
    var all := Split(version, '.');
    if |all| > 3 then all[..3] else all
  }

  /** `versionBase`: the kept components joined with `.`. */
  function VersionBase(version: string): (base: string)
    ensures Split(base, '.') == Kept(version)
  {
    var kept := Kept(version);
    forall i | 0 <= i < |kept| ensures '.' !in kept[i] {
      assert kept[i] == Split(version, '.')[i];
    }
    SplitJoin(kept, '.');
    Join(kept, '.')
  }

  /** `` `${versionBase}.${buildNumber}` ``: the version written after a bump to `build`. */
  function NextVersion(version: string, build: int): (next: string)
    ensures VersionBase(version) + "." <= next
    ensures EndsWith(next, IntToDecimal(build))
  {
    VersionBase(version) + "." + IntToDecimal(build)
  }

  /**
   * The new version splits into the kept components of the old one followed by exactly
   * one more component, the decimal build number.
   */
  lemma NextVersionComponents(version: string, build: int)
    ensures Split(NextVersion(version, build), '.') == Kept(version) + [IntToDecimal(build)]
  {
    var kept := Kept(version);
    var number := IntToDecimal(build);
    JoinSnoc(kept, number, '.');
    assert NextVersion(version, build) == Join(kept + [number], '.');
    forall i | 0 <= i < |kept + [number]| ensures '.' !in (kept + [number])[i] {
      if i < |kept| {
        assert (kept + [number])[i] == Split(version, '.')[i];
      }
    }
    SplitJoin(kept + [number], '.');
  }

  /** The build number reads back from the last component of the new version. */
  lemma BuildNumberReadsBack(version: string, build: int)
    ensures var parts := Split(NextVersion(version, build), '.');
      ParseInt(parts[|parts| - 1]) == Some(build)
  {
    NextVersionComponents(version, build);
    IntDecimalRoundTrip(build);
  }

  /**
   * Components past the third, such as an earlier build suffix, are dropped: a version
   * of four or more components keeps its first three and gains the build number.
   */
  lemma ExtraComponentsDiscarded(version: string, build: int)
    requires |Split(version, '.')| > 3
    ensures var parts := Split(NextVersion(version, build), '.');
      && |parts| == 4
      && parts[..3] == Split(version, '.')[..3]
      && parts[3] == IntToDecimal(build)
  {
    NextVersionComponents(version, build);
  }

  /**
   * With at least three components, two bumps keep the first three components and leave
   * the build number two higher as the last one.
   */
  lemma BumpTwiceKeepsBase(version: string, build: int)
    requires |Split(version, '.')| >= 3
    ensures var twice := NextVersion(NextVersion(version, build + 1), build + 2);
      && Split(twice, '.') == Split(version, '.')[..3] + [IntToDecimal(build + 2)]
      && ParseInt(Split(twice, '.')[3]) == Some(build + 2)
  {
    var once := NextVersion(version, build + 1);
    NextVersionComponents(version, build + 1);
    assert Split(once, '.')[..3] == Split(version, '.')[..3];
    NextVersionComponents(once, build + 2);
    IntDecimalRoundTrip(build + 2);
  }

  /**
   * A version of fewer than three components takes the first build number in as a
   * component of its base for good: after two bumps both build numbers remain.
   */
  lemma ShortVersionAbsorbsBuild(version: string, build: int)
    requires |Split(version, '.')| == 2
    ensures Split(NextVersion(NextVersion(version, build), build + 1), '.')
         == Split(version, '.') + [IntToDecimal(build), IntToDecimal(build + 1)]
  {
    var once := NextVersion(version, build);
    NextVersionComponents(version, build);
    NextVersionComponents(once, build + 1);
  }

  /** The three JSON records the script rewrites, as far as it touches them. */
  class BuildFiles {
    /** `buildInfo.buildNumber` */
    var buildNumber: int
    /** `manifest.version` */
    var manifestVersion: string
    /** `packageJson.version` */
    var packageVersion: string

    constructor (buildNumber: int, manifestVersion: string, packageVersion: string)
      ensures this.buildNumber == buildNumber
      ensures this.manifestVersion == manifestVersion
      ensures this.packageVersion == packageVersion
    {
      this.buildNumber := buildNumber;
      this.manifestVersion := manifestVersion;
      this.packageVersion := packageVersion;
    }

    /**
     * The script's body: bump the build number, derive the new version from the old
     * manifest version, store it in both records, and export the new build number.
     */
    method IncrementBuild() returns (exported: int)
      modifies this
      ensures buildNumber == old(buildNumber) + 1
      ensures manifestVersion == NextVersion(old(manifestVersion), buildNumber)
      ensures packageVersion == manifestVersion
      ensures exported == buildNumber
    {
      buildNumber := buildNumber + 1;
      var versionBase := VersionBase(manifestVersion);
      var newVersion := versionBase + "." + IntToDecimal(buildNumber);
      manifestVersion := newVersion;
      packageVersion := newVersion;
      exported := buildNumber;
    }
  }
}
