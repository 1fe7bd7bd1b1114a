/** The deterministic merge gate (src/coding/merge-gate.ts): tiers of touched files, and the checks. */
module MergeGate {
  import opened Messages

  const PROTECTED_PATHS: seq<string> := [
    "src/security/",
    "src/dispatch.ts",
    "src/config/loader.ts",
    "src/config/schema.ts",
    "src/coding/self-mod.ts",
    "src/coding/merge-gate.ts",
    "src/coding/improvement-proposals.ts",
    "src/tools/self-merge.ts",
    "src/tools/self-improve.ts",
    "scripts/supervisor.sh",
    ".github/",
    "package.json",
    "package-lock.json",
    "vitest.config.ts",
    "tsconfig.json",
    ".env"]

  const GATE_CONFIG_PATHS: seq<string> := [
    "package.json",
    "package-lock.json",
    "vitest.config.ts",
    "tsconfig.json",
    ".github/"]

  predicate StartsWith(s: string, prefix: string) {
    prefix <= s
  }

  predicate EndsWith(s: string, suffix: string) {
    |suffix| <= |s| && s[|s| - |suffix|..] == suffix
  }

  predicate Matches(file: string, pattern: string) {
    if EndsWith(pattern, "/") then StartsWith(file, pattern)
    else
      || file == pattern
      || StartsWith(file, pattern + "/")
      || (pattern == ".env" && StartsWith(file, ".env"))
  }

  predicate MatchesAny(file: string, patterns: seq<string>) {
    exists p | p in patterns :: Matches(file, p)
  }

  predicate IsCode(file: string) {
    StartsWith(file, "src/") || StartsWith(file, "test/") || StartsWith(file, "scripts/")
  }

  predicate IsDocs(file: string) {
    EndsWith(file, ".md") || StartsWith(file, "docs/")
  }

  datatype Classification = Classification(tier: nat, protectedTouched: seq<string>, gateConfigTampered: bool)

  function Touching(files: seq<string>, patterns: seq<string>): (hits: seq<string>)
    ensures forall f :: f in hits <==> f in files && MatchesAny(f, patterns)
  {
    if files == [] then []
    else (if MatchesAny(files[0], patterns) then [files[0]] else []) + Touching(files[1..], patterns)
  }

  function ClassifyTier(touchedFiles: seq<string>, protectedPathsExtra: seq<string>): Classification {
    var allProtected := PROTECTED_PATHS + protectedPathsExtra;
    var protectedTouched := Touching(touchedFiles, allProtected);
    var gateConfigTampered := exists f | f in touchedFiles :: MatchesAny(f, GATE_CONFIG_PATHS);
    var tier :=
      if |protectedTouched| > 0 then 3
      else if exists f | f in touchedFiles :: IsCode(f) then 2
      else if forall f | f in touchedFiles :: IsDocs(f) then 0
      else 1;
    Classification(tier, protectedTouched, gateConfigTampered)
  }

  function TierOf(file: string, extra: seq<string>): nat {
    ClassifyTier([file], extra).tier
  }

  function MaxTier(files: seq<string>, extra: seq<string>): nat {
    if files == [] then 0 else Max(TierOf(files[0], extra), MaxTier(files[1..], extra))
  }

  lemma {:induction false} MaxTierFacts(files: seq<string>, extra: seq<string>)
    ensures forall f | f in files :: TierOf(f, extra) <= MaxTier(files, extra)
    ensures MaxTier(files, extra) == 0 || exists f | f in files :: TierOf(f, extra) == MaxTier(files, extra)
  {
    if files != [] {
      MaxTierFacts(files[1..], extra);
      if MaxTier(files, extra) == TierOf(files[0], extra) {
        assert files[0] in files;
      } else if MaxTier(files, extra) > 0 {
        var f :| f in files[1..] && TierOf(f, extra) == MaxTier(files[1..], extra);
        assert f in files;
      }
    }
  }

  lemma TierMeaning(file: string, extra: seq<string>)
    ensures
      TierOf(file, extra) ==
      if MatchesAny(file, PROTECTED_PATHS + extra) then 3
      else if IsCode(file) then 2
      else if IsDocs(file) then 0
      else 1
  {
    var hits := Touching([file], PROTECTED_PATHS + extra);
    assert file in [file];
    assert MatchesAny(file, PROTECTED_PATHS + extra) <==> file in hits;
    if hits != [] {
      assert hits[0] in hits;
    }
  }

  lemma TierIsMaximum(files: seq<string>, extra: seq<string>)
    ensures ClassifyTier(files, extra).tier == MaxTier(files, extra)
  {
    MaxTierFacts(files, extra);
    var c := ClassifyTier(files, extra);
    forall f | f in files
      ensures TierOf(f, extra) <= c.tier
    {
      TierMeaning(f, extra);
      if TierOf(f, extra) == 3 {
        assert f in c.protectedTouched;
      }
    }
    if c.tier > 0 {
      var f := SomeFileOfTier(files, extra);
    }
  }

  lemma SomeFileOfTier(files: seq<string>, extra: seq<string>) returns (f: string)
    requires ClassifyTier(files, extra).tier > 0
    ensures f in files && TierOf(f, extra) >= ClassifyTier(files, extra).tier
  {
    var c := ClassifyTier(files, extra);
    if c.tier == 3 {
      f := c.protectedTouched[0];
      assert f in c.protectedTouched;
    } else if c.tier == 2 {
      f :| f in files && IsCode(f);
    } else {
      f :| f in files && !IsDocs(f);
    }
    TierMeaning(f, extra);
  }

  /** More files or more protected paths never lower the tier; tampering with the gate is always tier 3. */
  lemma TierNeverDrops(files: seq<string>, more: seq<string>, extra: seq<string>, moreExtra: seq<string>)
    ensures ClassifyTier(files, extra).tier <= ClassifyTier(files + more, extra + moreExtra).tier
    ensures ClassifyTier(files, extra).gateConfigTampered ==> ClassifyTier(files, extra).tier == 3
  {
    var c, d := ClassifyTier(files, extra), ClassifyTier(files + more, extra + moreExtra);
    if c.tier > 0 {
      var f := SomeFileOfTier(files, extra);
      TierMeaning(f, extra);
      TierMeaning(f, extra + moreExtra);
      MatchesMore(f, PROTECTED_PATHS + extra, PROTECTED_PATHS + (extra + moreExtra));
      TierIsMaximum(files + more, extra + moreExtra);
      MaxTierFacts(files + more, extra + moreExtra);
      assert f in files + more;
    }
    if c.gateConfigTampered {
      var f :| f in files && MatchesAny(f, GATE_CONFIG_PATHS);
      GateConfigIsProtected();
      MatchesMore(f, GATE_CONFIG_PATHS, PROTECTED_PATHS + extra);
      assert f in c.protectedTouched;
    }
  }

  lemma GateConfigIsProtected()
    ensures forall p | p in GATE_CONFIG_PATHS :: p in PROTECTED_PATHS
  {
    assert PROTECTED_PATHS[11] == GATE_CONFIG_PATHS[0] && PROTECTED_PATHS[12] == GATE_CONFIG_PATHS[1];
    assert PROTECTED_PATHS[13] == GATE_CONFIG_PATHS[2] && PROTECTED_PATHS[14] == GATE_CONFIG_PATHS[3];
    assert PROTECTED_PATHS[10] == GATE_CONFIG_PATHS[4];
  }

  lemma MatchesMore(file: string, patterns: seq<string>, more: seq<string>)
    requires forall p | p in patterns :: p in more
    ensures MatchesAny(file, patterns) ==> MatchesAny(file, more)
  {
  }

  /** What protecting a path protects: the path itself, everything below it, and for `.env` every name that
      begins with it; nothing else. */
  lemma {:induction false} MatchesMeaning(file: string, pattern: string)
    ensures
      Matches(file, pattern)
      <==> || file == pattern
           || (exists rest :: file == pattern + "/" + rest && !EndsWith(pattern, "/"))
           || (exists rest :: file == pattern + rest && (EndsWith(pattern, "/") || pattern == ".env"))
  {
    if StartsWith(file, pattern) {
      assert file == pattern + file[|pattern|..];
    }
    if StartsWith(file, pattern + "/") {
      assert file == pattern + "/" + file[|pattern| + 1..];
    }
  }

  /** A listed file, and whatever lies below a listed directory, is tier 3. */
  lemma {:induction false} ProtectedIsTierThree(pattern: string, rest: string, extra: seq<string>)
    requires pattern in PROTECTED_PATHS + extra
    ensures TierOf(pattern, extra) == 3
    ensures TierOf(if EndsWith(pattern, "/") then pattern + rest else pattern + "/" + rest, extra) == 3
    ensures TierOf(".env" + rest, extra) == 3
  {
    var below := if EndsWith(pattern, "/") then pattern + rest else pattern + "/" + rest;
    TierMeaning(pattern, extra);
    TierMeaning(below, extra);
    TierMeaning(".env" + rest, extra);
    MatchesMeaning(pattern, pattern);
    MatchesMeaning(below, pattern);
    MatchesMeaning(".env" + rest, ".env");
    assert PROTECTED_PATHS[15] == ".env" && ".env" in PROTECTED_PATHS + extra;
  }

  /** The program's own guards are protected in every configuration, and those of the build also count as
      tampering with the gate. */
  lemma {:induction false} OwnGuardsAreProtected(file: string, rest: string, extra: seq<string>)
    requires
      || file == "src/security/" + rest || file == "src/dispatch.ts"
      || file == "src/config/loader.ts" || file == "src/config/schema.ts"
      || file == "src/coding/self-mod.ts" || file == "src/coding/merge-gate.ts"
      || file == "src/coding/improvement-proposals.ts"
      || file == "src/tools/self-merge.ts" || file == "src/tools/self-improve.ts"
      || file == "scripts/supervisor.sh" || file == ".env" + rest || BuildFile(file, rest)
    ensures TierOf(file, extra) == 3
    ensures BuildFile(file, rest) ==> ClassifyTier([file], extra).gateConfigTampered
  {
    if BuildFile(file, rest) {
      BuildFilesAreProtected(file, rest, extra);
    } else if file == ".env" + rest {
      ListedIsTierThree(file, 15, extra);
    } else if file == "src/security/" + rest {
      assert EndsWith("src/security/", "/");
      ListedIsTierThree(file, 0, extra);
    } else {
      var i :=
        if file == "src/dispatch.ts" then 1
        else if file == "src/config/loader.ts" then 2
        else if file == "src/config/schema.ts" then 3
        else if file == "src/coding/self-mod.ts" then 4
        else if file == "src/coding/merge-gate.ts" then 5
        else if file == "src/coding/improvement-proposals.ts" then 6
        else if file == "src/tools/self-merge.ts" then 7
        else if file == "src/tools/self-improve.ts" then 8
        else 9;
      assert PROTECTED_PATHS[i] == file;
      MatchesMeaning(file, file);
      ListedIsTierThree(file, i, extra);
    }
  }

  lemma BuildFilesAreProtected(file: string, rest: string, extra: seq<string>)
    requires BuildFile(file, rest)
    ensures TierOf(file, extra) == 3 && ClassifyTier([file], extra).gateConfigTampered
  {
    if file == ".github/" + rest {
      assert EndsWith(".github/", "/") && Matches(file, GATE_CONFIG_PATHS[4]);
    } else {
      var i :=
        if file == "package.json" then 0
        else if file == "package-lock.json" then 1
        else if file == "vitest.config.ts" then 2
        else 3;
      assert GATE_CONFIG_PATHS[i] == file;
      MatchesMeaning(file, file);
      assert Matches(file, GATE_CONFIG_PATHS[i]);
    }
    assert MatchesAny(file, GATE_CONFIG_PATHS) && file in [file];
    TierNeverDrops([file], [], extra, []);
  }

  lemma ListedIsTierThree(file: string, i: nat, extra: seq<string>)
    requires i < |PROTECTED_PATHS| && Matches(file, PROTECTED_PATHS[i])
    ensures TierOf(file, extra) == 3
  {
    TierMeaning(file, extra);
    assert PROTECTED_PATHS[i] in PROTECTED_PATHS + extra;
  }

  predicate BuildFile(file: string, rest: string) {
    || file == "package.json" || file == "package-lock.json" || file == "vitest.config.ts"
    || file == "tsconfig.json" || file == ".github/" + rest
  }

  /** What is not protected is tier 2 under `src/`, `test/` and `scripts/`, tier 0 if it is documentation
      elsewhere, and tier 1 otherwise. */
  lemma {:induction false} UnprotectedTiers(file: string, rest: string, extra: seq<string>)
    requires !MatchesAny(file, PROTECTED_PATHS + extra)
    ensures file == "src/" + rest || file == "test/" + rest || file == "scripts/" + rest ==> TierOf(file, extra) == 2
    ensures file == "docs/" + rest || file == "README.md" ==> TierOf(file, extra) == 0
    ensures file == "workspace/" + rest + ".md" ==> TierOf(file, extra) == 0
    ensures file == "workspace/" + rest + ".json" ==> TierOf(file, extra) == 1
  {
    TierMeaning(file, extra);
    if file != "" && file[0] != 's' && file[0] != 't' {
      NotCode(file);
    }
    if file == "workspace/" + rest + ".md" {
      assert file[0] == 'w' && file[|file| - 3..] == ".md";
    }
    if file == "workspace/" + rest + ".json" {
      assert file[0] == 'w' && file[|file| - 1] == 'n';
      NotDocs(file);
    }
  }

  lemma NotCode(file: string)
    requires file != "" && file[0] != 's' && file[0] != 't'
    ensures !IsCode(file)
  {
    assert "src/"[0] == 's' && "scripts/"[0] == 's' && "test/"[0] == 't';
  }

  lemma NotDocs(file: string)
    requires file != "" && file[0] != 'd' && file[|file| - 1] != 'd'
    ensures !IsDocs(file)
  {
    assert "docs/"[0] == 'd';
    if |file| >= 3 {
      assert file[|file| - 3..][2] == file[|file| - 1];
    }
  }

  // ------------------------------------------------------------ running the checks

  /** `trusted` tells whether the tool came from the main repository's own modules. */
  datatype GateCheck = GateCheck(name: string, pass: bool, trusted: bool)

  datatype GateVerdict = GateVerdict(
    pass: bool, classification: Classification, touchedFiles: seq<string>,
    depsReinstalled: bool, checks: seq<GateCheck>, baseSha: string, headSha: string)

  predicate IsForeign(file: string) {
    file == "node_modules" || StartsWith(file, "node_modules/") || StartsWith(file, "data/")
  }

  predicate TouchesDeps(files: seq<string>) {
    "package.json" in files || "package-lock.json" in files
  }

  /** What may never enter a merge: the arena's own modules and the runtime data, and nothing else. */
  lemma {:induction false} ForeignMeaning(file: string)
    ensures
      IsForeign(file)
      <==> || file == "node_modules"
           || (exists rest :: file == "node_modules/" + rest)
           || (exists rest :: file == "data/" + rest)
  {
    if "node_modules/" <= file {
      assert file == "node_modules/" + file[13..];
    }
    if "data/" <= file {
      assert file == "data/" + file[5..];
    }
  }

  predicate AllPass(checks: seq<GateCheck>) {
    forall c | c in checks :: c.pass
  }

  /** The checks that a branch without foreign files has to pass, in order. */
  function Required(files: seq<string>): (names: seq<string>)
    ensures |names| >= 2
  {
    (if TouchesDeps(files) then ["npm-ci"] else []) + ["tsc", "vitest"]
  }

  /** The checks that are run, over any answers of the runner: a clean install first if the package files are
      touched, then the compiler, then the tests, as far as all before have passed. */
  lemma {:induction false} ChecksInOrder(files: seq<string>, trusted: bool, run: string -> bool)
    ensures
      var depsTouched := "package.json" in files || "package-lock.json" in files;
      var tests := if run("tsc") then ["tsc", "vitest"] else ["tsc"];
      Names(RunChecks(Required(files), trusted, run))
      == if !depsTouched then tests else if run("npm-ci") then ["npm-ci"] + tests else ["npm-ci"]
  {
    assert ["tsc", "vitest"][1..] == ["vitest"] && ["vitest"][1..] == [];
    assert RunChecks(["vitest"], trusted, run) == [GateCheck("vitest", run("vitest"), trusted)];
    if TouchesDeps(files) {
      assert Required(files)[0] == "npm-ci" && Required(files)[1..] == ["tsc", "vitest"];
    } else {
      assert Required(files) == ["tsc", "vitest"];
    }
  }

  function Names(checks: seq<GateCheck>): seq<string> {
    seq(|checks|, i requires 0 <= i < |checks| => checks[i].name)
  }

  /** Required checks in order, each answered by the runner, stopping at the first that fails. */
  ghost predicate RunsInOrder(checks: seq<GateCheck>, required: seq<string>, run: string -> bool) {
    && Names(checks) <= required
    && (forall i | 0 <= i < |checks| :: checks[i].pass == run(checks[i].name))
    && (forall i | 0 <= i < |checks| - 1 :: checks[i].pass)
    && (|checks| < |required| ==> |checks| > 0 && !checks[|checks| - 1].pass)
  }

  /** Run the named checks in order, stopping after the first that fails. */
  function RunChecks(names: seq<string>, trusted: bool, run: string -> bool): seq<GateCheck> {
    if names == [] then []
    else
      var c := GateCheck(names[0], run(names[0]), trusted);
      [c] + if c.pass then RunChecks(names[1..], trusted, run) else []
  }

  lemma {:induction false} ChecksStopAtFirstFailure(names: seq<string>, trusted: bool, run: string -> bool)
    ensures RunsInOrder(RunChecks(names, trusted, run), names, run)
    ensures AllPass(RunChecks(names, trusted, run)) <==> forall name | name in names :: run(name)
    ensures forall c | c in RunChecks(names, trusted, run) :: c.trusted == trusted
  {
    if names != [] {
      var c, rest := GateCheck(names[0], run(names[0]), trusted), RunChecks(names[1..], trusted, run);
      ChecksStopAtFirstFailure(names[1..], trusted, run);
      assert names == [names[0]] + names[1..];
      if run(names[0]) {
        OneInOrder(c, rest, names, run);
        assert RunChecks(names, trusted, run) == [c] + rest;
        assert AllPass([c] + rest) <==> AllPass(rest);
      } else {
        assert RunChecks(names, trusted, run) == [c];
        assert c in [c] && names[0] in names;
      }
    }
  }

  lemma OneInOrder(c: GateCheck, rest: seq<GateCheck>, names: seq<string>, run: string -> bool)
    requires names != [] && c.name == names[0] && c.pass && run(names[0])
    requires RunsInOrder(rest, names[1..], run)
    ensures RunsInOrder([c] + rest, names, run)
  {
    var checks := [c] + rest;
    assert Names(checks) == [names[0]] + Names(rest);
    assert names == [names[0]] + names[1..];
    forall i | 0 <= i < |checks|
      ensures checks[i].pass == run(checks[i].name) && (i < |checks| - 1 ==> checks[i].pass)
    {
      assert i > 0 ==> checks[i] == rest[i - 1];
    }
  }

  /** `checks` is what has been run so far of a pass over some names; `rest` are the names not reached. */
  function WithRest(checks: seq<GateCheck>, rest: seq<string>, trusted: bool, run: string -> bool): seq<GateCheck> {
    checks + if AllPass(checks) then RunChecks(rest, trusted, run) else []
  }

  lemma OneCheckMore(checks: seq<GateCheck>, rest: seq<string>, trusted: bool, run: string -> bool)
    requires rest != []
    ensures
      var next := checks + [GateCheck(rest[0], run(rest[0]), trusted)];
      WithRest(checks, rest, trusted, run)
      == WithRest(if AllPass(checks) then next else checks, rest[1..], trusted, run)
  {
    var c := GateCheck(rest[0], run(rest[0]), trusted);
    if AllPass(checks) {
      assert AllPass(checks + [c]) == c.pass by {
        assert c in checks + [c];
      }
      var tail := if c.pass then RunChecks(rest[1..], trusted, run) else [];
      assert checks + ([c] + tail) == (checks + [c]) + tail;
    }
  }

  predicate HasForeign(files: seq<string>) {
    exists f | f in files :: IsForeign(f)
  }

  method RunMergeGate(baseSha: string, headSha: string, touchedFiles: seq<string>, protectedPathsExtra: seq<string>,
                      repoRootKnown: bool, run: string -> bool)
    returns (v: GateVerdict)
    ensures v.baseSha == baseSha && v.headSha == headSha && v.touchedFiles == touchedFiles
    ensures v.classification == ClassifyTier(touchedFiles, protectedPathsExtra)
    ensures v.checks ==
            if HasForeign(touchedFiles) then [GateCheck("foreign-files", false, false)]
            else RunChecks(Required(touchedFiles), repoRootKnown && !TouchesDeps(touchedFiles), run)
    ensures v.pass <==>
            && touchedFiles != []
            && !HasForeign(touchedFiles)
            && forall name | name in Required(touchedFiles) :: run(name)
    ensures v.depsReinstalled <==> !HasForeign(touchedFiles) && TouchesDeps(touchedFiles)
    ensures
      var depsTouched := "package.json" in touchedFiles || "package-lock.json" in touchedFiles;
      v.pass <==>
        && touchedFiles != [] && !HasForeign(touchedFiles)
        && (depsTouched ==> run("npm-ci")) && run("tsc") && run("vitest")
  {
    var classification := ClassifyTier(touchedFiles, protectedPathsExtra);
    if HasForeign(touchedFiles) {
      var checks := [GateCheck("foreign-files", false, false)];
      return GateVerdict(false, classification, touchedFiles, false, checks, baseSha, headSha);
    }
    var checks, depsReinstalled := RunRequiredChecks(touchedFiles, repoRootKnown, run);
    v := GateVerdict(|checks| > 0 && AllPass(checks) && |touchedFiles| > 0, classification, touchedFiles,
                     depsReinstalled, checks, baseSha, headSha);
    ChecksStopAtFirstFailure(Required(touchedFiles), repoRootKnown && !TouchesDeps(touchedFiles), run);
  }

  method RunRequiredChecks(touchedFiles: seq<string>, repoRootKnown: bool, run: string -> bool)
    returns (checks: seq<GateCheck>, depsReinstalled: bool)
    ensures depsReinstalled == TouchesDeps(touchedFiles)
    ensures checks == RunChecks(Required(touchedFiles), repoRootKnown && !depsReinstalled, run)
    ensures |checks| > 0
    ensures depsReinstalled <==> "package.json" in touchedFiles || "package-lock.json" in touchedFiles
  {
    checks, depsReinstalled := [], false;
    ghost var names, tail := Required(touchedFiles), ["tsc", "vitest"];
    ghost var last := ["vitest"];
    assert tail[1..] == last && last[1..] == [];
    if TouchesDeps(touchedFiles) {
      assert names[0] == "npm-ci" && names[1..] == tail;
      OneCheckMore(checks, names, false, run);
      checks := checks + [GateCheck("npm-ci", run("npm-ci"), false)];
      assert WithRest(checks, tail, false, run) == WithRest([], names, false, run);
      depsReinstalled := true;
    }
    var trusted := repoRootKnown && !depsReinstalled;
    assert !depsReinstalled ==> names == tail;
    assert WithRest(checks, tail, trusted, run) == WithRest([], names, trusted, run);
    OneCheckMore(checks, tail, trusted, run);
    if AllPass(checks) {
      checks := checks + [GateCheck("tsc", run("tsc"), trusted)];
    }
    OneCheckMore(checks, last, trusted, run);
    if AllPass(checks) {
      checks := checks + [GateCheck("vitest", run("vitest"), trusted)];
    }
    assert WithRest(checks, [], trusted, run) == WithRest([], names, trusted, run);
  }
}
