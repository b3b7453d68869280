/**
 * Project Model: the record the generator keeps per project (ProjInfo), its
 * configuration type (EConfType), the filter that keeps CMake's own utility
 * targets out of the project list, and the case-insensitive lookup of a
 * project by name.
 */
module Projects {
  import opened Text
  import opened Results

  /**
   * EConfType. Like a C# enum it can hold any integer: the four named values,
   * the default 0 of a ProjInfo whose configuration type was never seen, or
   * any other value the configuration property parses to.
   */
  newtype ConfType = int

  const Unknown: ConfType := -1
  const Application: ConfType := 1
  const DynamicLibrary: ConfType := 2
  const StaticLibrary: ConfType := 4
  /** The value of a ProjInfo field that was never assigned. */
  const Unset: ConfType := 0

  /** Enum.ToString(): the member's name, or the decimal value for an unnamed value. */
  function ConfTypeName(t: ConfType): string
  {
    if t == Unknown then "Unknown"
    else if t == Application then "Application"
    else if t == DynamicLibrary then "DynamicLibrary"
    else if t == StaticLibrary then "StaticLibrary"
    else Decimal(t as int)
  }

  /** The configuration-type comment names the type unambiguously: distinct types render differently. */
  lemma ConfTypeNameInjective(a: ConfType, b: ConfType)
    requires ConfTypeName(a) == ConfTypeName(b)
    ensures a == b
  {
    DecimalSign(a as int);
    DecimalSign(b as int);
    if ConfTypeName(a) == Decimal(a as int) && ConfTypeName(b) == Decimal(b as int) {
      DecimalInjective(a as int, b as int);
    }
  }

  /** ProjInfo: what the generator knows of one project. */
  datatype ProjInfo = ProjInfo(name: string, directory: string, projType: ConfType, dependencyNames: seq<string>)

  /** CMPROJS: the utility targets of a CMake-generated solution, which are never projects of their own. */
  const ReservedProjects: seq<string> := ["ALL_BUILD", "ZERO_CHECK", "RUN_TESTS", "INSTALL"]

  /** CMPROJS.Contains: an exact, case-sensitive comparison. */
  predicate IsReserved(name: string)
  {
    name in ReservedProjects
  }

  /** One property of a project's active configuration, its value already parsed to an EConfType. */
  datatype Property = Property(name: string, value: ConfType)

  /**
   * One build dependency of the solution as the host reports it: the project,
   * its directory, the names of the projects it requires, and the properties
   * of its active configuration.
   */
  datatype BuildDependency = BuildDependency(
    projectName: string,
    projectDirectory: string,
    requiredProjectNames: seq<string>,
    configuration: seq<Property>)

  /** string.Equals with InvariantCultureIgnoreCase, for ASCII. */
  predicate SameName(a: string, b: string)
  {
    Upper(a) == Upper(b)
  }

  /** The name of the configuration property that carries the project type. */
  const ConfigurationTypeProperty: string := "ConfigurationType"

  /** The comparison the property loop makes: the name matches ignoring case. */
  predicate IsTypeProperty(prop: Property)
  {
    SameName(ConfigurationTypeProperty, prop.name)
  }

  /** The project type: the value of the last property named ConfigurationType, or Unset when there is none. */
  function ProjectTypeOf(configuration: seq<Property>): (t: ConfType)
    ensures t == Unset || exists k :: 0 <= k < |configuration| && configuration[k].value == t && IsTypeProperty(configuration[k])
  {
    if configuration == [] then Unset
    else
      var last := configuration[|configuration| - 1];
      if IsTypeProperty(last) then last.value
      else ProjectTypeOf(configuration[..|configuration| - 1])
  }

  /** Without a ConfigurationType property the type keeps its default. */
  lemma {:induction false} ProjectTypeOfNone(configuration: seq<Property>)
    requires forall k :: 0 <= k < |configuration| ==> !IsTypeProperty(configuration[k])
    ensures ProjectTypeOf(configuration) == Unset
  {
    if configuration != [] {
      var n := |configuration| - 1;
      var init := configuration[..n];
      SplitLast(configuration);
      ProjectTypeOfStep(init, configuration[n]);
      forall l | 0 <= l < n
        ensures !IsTypeProperty(init[l])
      {
        assert init[l] == configuration[l];
      }
      ProjectTypeOfNone(init);
    }
  }

  /** Every matching property overwrites the type, so the last one wins. */
  lemma {:induction false} ProjectTypeOfLast(configuration: seq<Property>, k: int)
    requires 0 <= k < |configuration| && IsTypeProperty(configuration[k])
    requires forall l :: k < l < |configuration| ==> !IsTypeProperty(configuration[l])
    ensures ProjectTypeOf(configuration) == configuration[k].value
  {
    var n := |configuration| - 1;
    var init := configuration[..n];
    SplitLast(configuration);
    ProjectTypeOfStep(init, configuration[n]);
    if k < n {
      forall l | k < l < n
        ensures !IsTypeProperty(init[l])
      {
        assert init[l] == configuration[l];
      }
      assert init[k] == configuration[k];
      ProjectTypeOfLast(init, k);
    }
  }

  lemma ProjectTypeOfStep(init: seq<Property>, prop: Property)
    ensures ProjectTypeOf(init + [prop]) == if IsTypeProperty(prop) then prop.value else ProjectTypeOf(init)
  {
    assert (init + [prop])[..|init|] == init;
  }

  /** The required-project names with CMPROJS entries skipped, in their original order. */
  function DropReserved(names: seq<string>): (r: seq<string>)
    ensures |r| <= |names|
    ensures forall n :: n in r <==> n in names && !IsReserved(n)
  {
    if names == [] then []
    else
      var last := names[|names| - 1];
      DropReserved(names[..|names| - 1]) + (if IsReserved(last) then [] else [last])
  }

  /** A single name is kept exactly when it is not reserved. */
  lemma DropReservedOne(name: string)
    ensures DropReserved([name]) == if IsReserved(name) then [] else [name]
  {
    assert [name][..0] == [];
  }

  /** Filtering is done name by name, so order and repetitions are kept. */
  lemma {:induction false} DropReservedAppend(a: seq<string>, b: seq<string>)
    ensures DropReserved(a + b) == DropReserved(a) + DropReserved(b)
  {
    if b != [] {
      var n := |b| - 1;
      var b0, last := b[..n], b[n];
      assert a + b == (a + b0) + [last];
      SplitLast(b);
      DropReservedAppend(a, b0);
      DropReservedStep(a + b0, last);
      DropReservedStep(b0, last);
    } else {
      assert a + b == a;
    }
  }

  lemma DropReservedStep(init: seq<string>, name: string)
    ensures DropReserved(init + [name]) == DropReserved(init) + (if IsReserved(name) then [] else [name])
  {
    assert (init + [name])[..|init|] == init;
  }

  /** The ProjInfo recorded for one non-reserved build dependency. */
  function ProjectOf(bd: BuildDependency): ProjInfo
  {
    ProjInfo(bd.projectName, bd.projectDirectory, ProjectTypeOf(bd.configuration), DropReserved(bd.requiredProjectNames))
  }

  /** The project list: one ProjInfo per build dependency that is not a CMPROJS target, in order. */
  function CollectProjects(bds: seq<BuildDependency>): (projs: seq<ProjInfo>)
    ensures |projs| <= |bds|
    ensures forall k :: 0 <= k < |projs| ==> !IsReserved(projs[k].name)
  {
    if bds == [] then []
    else
      var last := bds[|bds| - 1];
      CollectProjects(bds[..|bds| - 1]) + (if IsReserved(last.projectName) then [] else [ProjectOf(last)])
  }

  /** A build dependency gives rise to project `p` when it is not reserved and records as `p`. */
  predicate Gives(bd: BuildDependency, p: ProjInfo)
  {
    !IsReserved(bd.projectName) && p == ProjectOf(bd)
  }

  /** A project is listed exactly when a non-reserved build dependency gives rise to it. */
  lemma {:induction false} CollectProjectsMembers(bds: seq<BuildDependency>, p: ProjInfo)
    ensures p in CollectProjects(bds) <==> exists bd :: bd in bds && Gives(bd, p)
  {
    if bds != [] {
      var init, last := bds[..|bds| - 1], bds[|bds| - 1];
      SplitLast(bds);
      CollectProjectsMembers(init, p);
      assert CollectProjects(bds) == CollectProjects(init) + (if IsReserved(last.projectName) then [] else [ProjectOf(last)]);
      assert forall bd :: bd in bds <==> bd in init || bd == last;
      if p in CollectProjects(bds) {
        if p !in CollectProjects(init) {
          assert Gives(last, p);
        }
      }
      if exists bd :: bd in bds && Gives(bd, p) {
        var bd :| bd in bds && Gives(bd, p);
        if bd == last {
          assert p in CollectProjects(bds);
        } else {
          assert bd in init;
          assert p in CollectProjects(init);
        }
      }
    }
  }

  /** No listed project, and no dependency name of a listed project, is one of CMPROJS. */
  lemma CollectedNothingReserved(bds: seq<BuildDependency>, k: int)
    requires 0 <= k < |CollectProjects(bds)|
    ensures !IsReserved(CollectProjects(bds)[k].name)
    ensures forall d :: d in CollectProjects(bds)[k].dependencyNames ==> !IsReserved(d)
  {
    CollectProjectsMembers(bds, CollectProjects(bds)[k]);
  }

  /** Collecting is done dependency by dependency, so the input order is kept. */
  lemma {:induction false} CollectProjectsAppend(a: seq<BuildDependency>, b: seq<BuildDependency>)
    ensures CollectProjects(a + b) == CollectProjects(a) + CollectProjects(b)
  {
    if b != [] {
      var n := |b| - 1;
      var b0, last := b[..n], b[n];
      assert a + b == (a + b0) + [last];
      SplitLast(b);
      CollectProjectsAppend(a, b0);
      CollectProjectsStep(a + b0, last);
      CollectProjectsStep(b0, last);
    } else {
      assert a + b == a;
    }
  }

  lemma CollectProjectsStep(init: seq<BuildDependency>, bd: BuildDependency)
    ensures CollectProjects(init + [bd]) == CollectProjects(init) + (if IsReserved(bd.projectName) then [] else [ProjectOf(bd)])
  {
    assert (init + [bd])[..|init|] == init;
  }

  /** The names of the projects, in order (projs.Select(s => s.Name)). */
  function Names(projs: seq<ProjInfo>): (names: seq<string>)
    ensures |names| == |projs|
    ensures forall k :: 0 <= k < |projs| ==> names[k] == projs[k].name
  {
    if projs == [] then [] else Names(projs[..|projs| - 1]) + [projs[|projs| - 1].name]
  }

  /**
   * FirstOrDefault over the project list by case-insensitive name: the index
   * of the first project whose name matches, or |projs| when none does.
   */
  function FirstMatch(projs: seq<ProjInfo>, name: string): (i: nat)
    ensures i <= |projs|
    ensures i < |projs| ==> SameName(projs[i].name, name)
    ensures forall j :: 0 <= j < i ==> !SameName(projs[j].name, name)
  {
    if projs == [] then 0
    else if SameName(projs[0].name, name) then 0
    else 1 + FirstMatch(projs[1..], name)
  }

  /** A name resolves when some project's name matches it case-insensitively. */
  predicate Resolves(projs: seq<ProjInfo>, name: string)
  {
    FirstMatch(projs, name) < |projs|
  }

  /** Resolution is exactly the existence of a case-insensitive match. */
  lemma ResolvesIff(projs: seq<ProjInfo>, name: string)
    ensures Resolves(projs, name) <==> exists j :: 0 <= j < |projs| && SameName(projs[j].name, name)
  {
  }
}
