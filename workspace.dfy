/** The pair of temporary files one remesh uses: the input path that
    `tempfile.mkstemp` creates, and the output path derived from it. */
module Workspace {
  import opened Paths

  const TempPrefix: string := "blender_quadriflow"
  const TempSuffix: string := ".obj"
  const OutputSuffix: string := ".output"

  /** The path `mkstemp(suffix=".obj", prefix="blender_quadriflow")` returns
      in `tempDir`; `token` stands for the random characters mkstemp picks
      (never a separator). The file lies directly in `tempDir`, and its name
      is the prefix, the token and the suffix. */
  function TempPath(tempDir: string, token: string): (p: string)
    ensures |p| >= |tempDir| && p[..|tempDir|] == tempDir
    ensures |p| >= |TempSuffix| && p[|p| - |TempSuffix|..] == TempSuffix
    ensures Sep !in token ==> Split(p) == Prefix(tempDir) + [TempPrefix + token + TempSuffix]
  {
    var name := TempPrefix + token + TempSuffix;
    assert name[|name| - |TempSuffix|..] == TempSuffix;
    assert Sep !in token ==> Split(Join(tempDir, name)) == Prefix(tempDir) + [name] by {
      if Sep !in token {
        assert forall j :: 0 <= j < |name| ==> name[j] != Sep by {
          forall j | 0 <= j < |name| ensures name[j] != Sep {
            if j >= |TempPrefix| && j < |TempPrefix| + |token| {
              assert name[j] == token[j - |TempPrefix|];
            }
          }
        }
        JoinComponents(tempDir, name);
      }
    }
    Join(tempDir, name)
  }

  /** The output path handed to Quadriflow: the input path followed by
      `.output`. It extends the input path, so it is never equal to it. */
  function OutputPath(input: string): (out: string)
    ensures |out| > |input| && out[..|input|] == input
    ensures out != input
    ensures out[|input|..] == OutputSuffix
  {
    input + OutputSuffix
  }

  /** Different input paths give different output paths. */
  lemma OutputPathInjective(a: string, b: string)
    requires OutputPath(a) == OutputPath(b)
    ensures a == b
  {
  }

  /** An output path never names a file mkstemp could hand out (it ends in
      `.output`, not `.obj`), so one remesh never deletes the input file of
      another. */
  lemma OutputIsNeverTempPath(input: string, tempDir: string, token: string)
    ensures OutputPath(input) != TempPath(tempDir, token)
  {
    var out, p := OutputPath(input), TempPath(tempDir, token);
    assert out[|out| - 1] == OutputSuffix[|OutputSuffix| - 1] == 't';
    assert p[|p| - 1] == TempSuffix[|TempSuffix| - 1] == 'j';
  }
}
