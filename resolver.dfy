/** Which Quadriflow executable the add-on runs: a name chosen by the host
    platform and the CUDA switch, under the `bin` directory of the add-on's
    install directory (`QuadriflowRemesher.find_quadriflow`). */
module Resolver {
  import opened Paths

  /** The three platform classes the resolver tells apart. Any platform
      string other than "linux" and "darwin" falls back to the Windows name;
      no platform is an error. */
  datatype Family = Linux | Darwin | Windows

  function FamilyOf(platform: string): Family
  {
    if platform == "linux" then Linux
    else if platform == "darwin" then Darwin
    else Windows
  }

  /** The executable name for a platform, before the CUDA prefix. */
  function BaseName(platform: string): (name: string)
    ensures name == "quadriflow" <==> platform == "linux"
    ensures name == "quadriflow_osx" <==> platform == "darwin"
    ensures name == "quadriflow.exe" <==> platform != "linux" && platform != "darwin"
    ensures |name| >= 10 && name[..10] == "quadriflow"
  {
    if platform == "linux" then "quadriflow"
    else if platform == "darwin" then "quadriflow_osx"
    else "quadriflow.exe"
  }

  const CudaPrefix: string := "cuda_"

  /** The executable name: the base name, with the CUDA prefix when CUDA
      is requested. */
  function ExeName(platform: string, cuda: bool): (name: string)
    ensures |name| == |BaseName(platform)| + (if cuda then |CudaPrefix| else 0)
    ensures name[..|CudaPrefix|] == CudaPrefix <==> cuda
    ensures name[|name| - |BaseName(platform)|..] == BaseName(platform)
    ensures Sep !in name
  {
    var base := BaseName(platform);
    assert base[0] == base[..10][0] == 'q';
    if cuda then CudaPrefix + base else base
  }

  /** The path of the executable: `<installDir>/bin/<name>`. Its components
      are the install directory's, then `bin`, then the executable name,
      and it begins with the install directory. */
  function FindQuadriflow(platform: string, cuda: bool, installDir: string): (p: string)
    ensures Split(p) == Prefix(installDir) + ["bin", ExeName(platform, cuda)]
    ensures |p| > |installDir| && p[..|installDir|] == installDir
  {
    JoinTwice(installDir, "bin", ExeName(platform, cuda));
    Join(Join(installDir, "bin"), ExeName(platform, cuda))
  }

  /** The six names (three platform classes, CUDA or not) are pairwise
      distinct: two names agree exactly when class and switch agree. */
  lemma ExeNameInjective(p1: string, c1: bool, p2: string, c2: bool)
    ensures ExeName(p1, c1) == ExeName(p2, c2) <==> FamilyOf(p1) == FamilyOf(p2) && c1 == c2
  {
  }

  /** Within one install directory the six variants resolve to six
      different paths. */
  lemma FindQuadriflowDistinct(p1: string, c1: bool, p2: string, c2: bool, installDir: string)
    ensures FindQuadriflow(p1, c1, installDir) == FindQuadriflow(p2, c2, installDir)
            <==> FamilyOf(p1) == FamilyOf(p2) && c1 == c2
  {
    ExeNameInjective(p1, c1, p2, c2);
    var s1 := Split(FindQuadriflow(p1, c1, installDir));
    var s2 := Split(FindQuadriflow(p2, c2, installDir));
    if s1 == s2 {
      assert s1[|s1| - 1] == s2[|s2| - 1];
    }
  }

  /** On Linux without CUDA, an add-on installed in a directory written
      without a trailing separator (such as `/addons/quadriflow`) runs
      `<installDir>/bin/quadriflow`. */
  lemma LinuxPathExample(installDir: string)
    requires installDir != [] && installDir[|installDir| - 1] != Sep
    ensures FindQuadriflow("linux", false, installDir) == installDir + "/bin" + "/quadriflow"
  {
    var dir := Join(installDir, "bin");
    assert dir == installDir + "/bin";
    assert ExeName("linux", false) == "quadriflow";
    assert Join(dir, "quadriflow") == dir + "/quadriflow";
  }
}
