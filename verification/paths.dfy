/** POSIX path helpers (`os.path.basename`, `os.path.splitext`,
    `os.path.join`), the mixed-output name, and the names the pipeline gives
    its files in the build directory. */
module Paths {
  import opened Text

  /** `os.path.basename`: the part after the last '/'. */
  function Basename(p: string): (r: string)
    ensures '/' !in r
    ensures |r| <= |p| && r == p[|p| - |r|..]
  {
    p[LastIndex(p, '/') + 1..]
  }

  /** True when a character other than '.' occurs in `p[from..to]`. */
  predicate HasNonDot(p: string, from: int, to: int)
    requires 0 <= from <= to <= |p|
  {
    exists k :: from <= k < to && p[k] != '.'
  }

  /** `os.path.splitext`: the extension starts at the last '.' after the last
      '/', unless only dots precede that '.' within the last component. */
  function SplitExt(p: string): (r: (string, string))
    ensures r.0 + r.1 == p
    ensures r.1 == [] || (r.1[0] == '.' && '.' !in r.1[1..] && '/' !in r.1)
  {
    var slash := LastIndex(p, '/');
    var dot := LastIndex(p, '.');
    if dot > slash && HasNonDot(p, slash + 1, dot) then
      assert p[..dot] + p[dot..] == p;
      (p[..dot], p[dot..])
    else (p, [])
  }

  /** posixpath `os.path.join(a, b)` for two components. */
  function Join(a: string, b: string): (r: string)
  {
    if b != [] && b[0] == '/' then b
    else if a == [] || a[|a| - 1] == '/' then a + b
    else a + "/" + b
  }

  /** `get_mixed_filename`: the input's base name with "-mixed" between its
      stem and its extension. */
  function MixedFilename(inputPath: string): (r: string)
    ensures '/' !in r && '-' in r
  {
    var (stem, ext) := SplitExt(Basename(inputPath));
    assert '/' !in stem + ext;
    var r := stem + "-mixed" + ext;
    assert r[|stem|] == '-';
    r
  }

  /** The last occurrence of `c` in `u + v`. */
  lemma {:induction false} LastIndexConcat(u: string, v: string, c: char)
    ensures c in v ==> LastIndex(u + v, c) == |u| + LastIndex(v, c)
    ensures c !in v ==> LastIndex(u + v, c) == LastIndex(u, c)
    decreases |v|
  {
    if v == [] {
      assert u + v == u;
    } else {
      var w := v[..|v| - 1];
      assert v == w + [v[|v| - 1]];
      assert (u + v)[..|u + v| - 1] == u + w;
      if v[|v| - 1] != c {
        LastIndexConcat(u, w, c);
      }
    }
  }

  /** The mixed name keeps the extension of the input's base name:
      `splitext` of the result is the input's stem with "-mixed" appended,
      and the same extension. */
  lemma MixedFilenameKeepsExtension(inputPath: string)
    ensures var (stem, ext) := SplitExt(Basename(inputPath));
            SplitExt(MixedFilename(inputPath)) == (stem + "-mixed", ext)
  {
    var name := Basename(inputPath);
    var (stem, ext) := SplitExt(name);
    if ext == [] {
      KeepsNoExtension(name);
    } else {
      KeepsExtension(stem, ext);
    }
  }

  /** A base name without an extension gets none by appending "-mixed". */
  lemma KeepsNoExtension(name: string)
    requires '/' !in name && SplitExt(name).1 == []
    ensures SplitExt(name + "-mixed") == (name + "-mixed", [])
  {
    var m := name + "-mixed";
    LastIndexConcat(name, "-mixed", '/');
    LastIndexConcat(name, "-mixed", '.');
    var dot := LastIndex(name, '.');
    assert LastIndex(m, '/') == -1 && LastIndex(name, '/') == -1;
    assert LastIndex(m, '.') == dot;
    if dot > -1 {
      assert !HasNonDot(name, 0, dot);
      assert forall k :: 0 <= k < dot ==> m[k] == name[k];
      assert !HasNonDot(m, 0, dot);
    }
  }

  /** A stem with "-mixed" appended keeps the extension after it. */
  lemma KeepsExtension(stem: string, ext: string)
    requires '/' !in stem + ext
    requires ext != [] && ext[0] == '.' && '.' !in ext[1..]
    ensures SplitExt(stem + "-mixed" + ext) == (stem + "-mixed", ext)
  {
    var head := stem + "-mixed";
    var m := head + ext;
    assert '/' !in ext && '/' !in head;
    LastIndexConcat(head, ext, '/');
    LastIndexConcat(head, ext, '.');
    assert LastIndex(head, '/') == -1;
    assert LastIndex(ext, '.') == 0 by {
      assert forall j :: 0 < j < |ext| ==> ext[j] == ext[1..][j - 1];
    }
    var dot := LastIndex(m, '.');
    assert dot == |head|;
    assert m[|stem|] == '-';
    assert HasNonDot(m, 0, dot);
    assert m[..dot] == head && m[dot..] == ext;
  }

  /** The build directory and the files the pipeline keeps there. */
  const BuildDir: string := "build"

  function BinauralFile(): string
  {
    Join(BuildDir, "binaural.wav")
  }

  /** `build/tmp_effect_<i>.wav`, the output of the i-th overlay. */
  function TmpEffect(i: nat): string
  {
    Join(BuildDir, "tmp_effect_" + NatDecimal(i) + ".wav")
  }

  /** `build/<input-stem>-mixed<input-ext>`, the pipeline's output. */
  function OutputMix(audio: string): string
  {
    Join(BuildDir, MixedFilename(audio))
  }

  /** The output never coincides with an intermediate, so the cleanup can
      never delete it: the output name has a '-', the others have none. */
  lemma OutputIsNotIntermediate(audio: string, i: nat)
    ensures OutputMix(audio) != TmpEffect(i)
    ensures OutputMix(audio) != BinauralFile()
  {
    OutputHasDash(audio);
    TmpHasNoDash(i);
    BinauralHasNoDash();
  }

  lemma OutputHasDash(audio: string)
    ensures '-' in OutputMix(audio)
  {
    var name := MixedFilename(audio);
    JoinBuild(name);
    var k :| 0 <= k < |name| && name[k] == '-';
    assert OutputMix(audio)[6 + k] == '-';
  }

  lemma TmpHasNoDash(i: nat)
    ensures '-' !in TmpEffect(i)
  {
    var tmp := "tmp_effect_" + NatDecimal(i) + ".wav";
    NatDecimalPlain(i);
    assert '-' !in tmp;
    JoinBuild(tmp);
  }

  lemma BinauralHasNoDash()
    ensures '-' !in BinauralFile()
  {
    JoinBuild("binaural.wav");
  }

  /** Each overlay writes its own intermediate. */
  lemma TmpEffectInjective(i: nat, j: nat)
    requires i != j
    ensures TmpEffect(i) != TmpEffect(j)
  {
    var a := "tmp_effect_" + NatDecimal(i) + ".wav";
    var b := "tmp_effect_" + NatDecimal(j) + ".wav";
    assert a[0] == 't' && b[0] == 't';
    assert TmpEffect(i) == "build/" + a && TmpEffect(j) == "build/" + b;
    if TmpEffect(i) == TmpEffect(j) {
      assert ("build/" + a)[6..] == a && ("build/" + b)[6..] == b;
      assert a[11..|a| - 4] == NatDecimal(i);
      assert b[11..|b| - 4] == NatDecimal(j);
      DecimalRoundTrip(i);
      DecimalRoundTrip(j);
    }
  }

  /** A relative name joined to the build directory lies inside it. */
  lemma JoinBuild(name: string)
    requires name == [] || name[0] != '/'
    ensures Join(BuildDir, name) == "build/" + name
    ensures StartsWith(Join(BuildDir, name), "build/")
  {
    assert ("build/" + name)[..6] == "build/";
  }

  /** Every path the pipeline writes in the build directory starts with
      "build/", which tells it apart from a fresh temporary file. */
  lemma BuildPathsStartWithBuild(audio: string, i: nat)
    ensures StartsWith(OutputMix(audio), "build/")
    ensures StartsWith(TmpEffect(i), "build/")
    ensures StartsWith(BinauralFile(), "build/")
  {
    JoinBuild(MixedFilename(audio));
    JoinBuild("tmp_effect_" + NatDecimal(i) + ".wav");
    JoinBuild("binaural.wav");
  }
}
