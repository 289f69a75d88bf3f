/** The file names the audio pipeline derives from its inputs:
    `extract_audio` and `isolate_speech` of
    app/services/audio/audio_processor_service.py, and the audio path of
    `process_video` in app/services/recommendation_service.py and
    app/services/video_service.py. Paths are POSIX paths
    (`Strings.Basename`, `Strings.SplitExt`, `Strings.PathJoin`). */
module AudioPaths {
  import opened Strings

  /** `os.path.splitext(os.path.basename(p))[0]`. */
  function Stem(p: string): (s: string)
    ensures '/' !in s
  {
    var b := Basename(p);
    var r := SplitExt(b);
    assert forall k :: 0 <= k < |r.0| ==> r.0[k] == b[k];
    r.0
  }

  /** `extract_audio`: `<temp_dir>/<stem>_raw.wav`. */
  function RawAudioPath(tempDir: string, videoPath: string): string
  {
    PathJoin(tempDir, Stem(videoPath) + "_raw.wav")
  }

  /** `isolate_speech`: the audio file's stem without a trailing `_raw`, then
      `_speech_only`, then the original extension, in `temp_dir`. */
  function SpeechOnlyPath(tempDir: string, audioPath: string): string
  {
    var (base, ext) := SplitExt(Basename(audioPath));
    var stem := if EndsWith(base, "_raw") then base[..|base| - 4] else base;
    PathJoin(tempDir, stem + "_speech_only" + ext)
  }

  /** `f"{audio_dir}/{os.path.splitext(filename)[0]}.wav"` with
      `filename = os.path.basename(video_path)`. */
  function WavPath(audioDir: string, videoPath: string): string
  {
    audioDir + "/" + Stem(videoPath) + ".wav"
  }

  /** The base name of a path whose last '/' sits just before `k`. */
  lemma BasenameAt(p: string, k: nat)
    requires k <= |p|
    requires k == 0 || p[k - 1] == '/'
    requires '/' !in p[k..]
    requires k == 0 ==> '/' !in p
    ensures Basename(p) == p[k..]
  {
    var i := RFindChar(p, '/');
    if k == 0 {
      assert i == -1;
    } else {
      assert p[k - 1] in p;
    }
  }

  /** Joining a directory and a name with no '/' yields a path whose base
      name is that name. */
  lemma BasenameOfJoin(dir: string, name: string)
    requires '/' !in name
    ensures Basename(PathJoin(dir, name)) == name
  {
    if name != [] {
      assert name[0] != '/';
    }
    var p := PathJoin(dir, name);
    if dir == [] {
      BasenameAt(p, 0);
    } else if EndsWith(dir, "/") {
      assert p == dir + name && p[|dir|..] == name;
      BasenameAt(p, |dir|);
    } else {
      assert p == dir + "/" + name && p[|dir| + 1..] == name;
      BasenameAt(p, |dir| + 1);
    }
  }

  lemma NoSlashConcat(a: string, b: string)
    requires '/' !in a && '/' !in b
    ensures '/' !in a + b
  {
    forall k | 0 <= k < |a + b| ensures (a + b)[k] != '/' {
      if k < |a| { assert (a + b)[k] == a[k]; } else { assert (a + b)[k] == b[k - |a|]; }
    }
  }

  /** `isolate_speech` drops the `_raw` suffix that `extract_audio` adds. */
  lemma SpeechOnlyOfRaw(tempDir: string, stem: string)
    requires '/' !in stem
    ensures SpeechOnlyPath(tempDir, PathJoin(tempDir, stem + "_raw" + ".wav"))
              == PathJoin(tempDir, stem + "_speech_only" + ".wav")
  {
    var rawStem := stem + "_raw";
    var name := rawStem + ".wav";
    NoSlashConcat(stem, "_raw");
    NoSlashConcat(rawStem, ".wav");
    var p := PathJoin(tempDir, name);
    BasenameOfJoin(tempDir, name);
    assert Basename(p) == name;
    assert ".wav"[1..] == "wav" && '.' !in "wav";
    assert rawStem[|rawStem| - 1] == 'w';
    SplitExtOfSuffix(rawStem, ".wav");
    assert SplitExt(Basename(p)) == (rawStem, ".wav");
    assert rawStem[|rawStem| - 4..] == "_raw";
    assert EndsWith(rawStem, "_raw");
    assert rawStem[..|rawStem| - 4] == stem;
  }

  /** Composing the two steps: `isolate_speech` applied to the file that
      `extract_audio` writes yields `<temp_dir>/<stem>_speech_only.wav`. */
  lemma RawThenSpeechOnly(tempDir: string, videoPath: string)
    ensures SpeechOnlyPath(tempDir, RawAudioPath(tempDir, videoPath))
              == PathJoin(tempDir, Stem(videoPath) + "_speech_only" + ".wav")
  {
    var stem := Stem(videoPath);
    RawName(stem);
    SpeechOnlyOfRaw(tempDir, stem);
  }

  lemma RawName(stem: string)
    ensures stem + "_raw.wav" == stem + "_raw" + ".wav"
  {
    assert "_raw.wav" == "_raw" + ".wav";
  }

  /** The audio path of `process_video` lies directly in `audio_dir` and is
      named after the video's stem with the extension `.wav`. */
  lemma WavPathShape(audioDir: string, videoPath: string)
    ensures Basename(WavPath(audioDir, videoPath)) == Stem(videoPath) + ".wav"
    ensures WavPath(audioDir, videoPath)[..|audioDir| + 1] == audioDir + "/"
  {
    var stem := Stem(videoPath);
    NoSlashConcat(stem, ".wav");
    Regroup(audioDir + "/", stem, ".wav");
    BasenameAfterSlash(audioDir, stem + ".wav");
  }

  lemma Regroup(a: string, b: string, c: string)
    ensures a + b + c == a + (b + c)
  {
  }

  /** `dir + "/" + name` has base name `name` and starts with `dir + "/"`. */
  lemma BasenameAfterSlash(dir: string, name: string)
    requires '/' !in name
    ensures Basename(dir + "/" + name) == name
    ensures (dir + "/" + name)[..|dir| + 1] == dir + "/"
  {
    var p := dir + "/" + name;
    assert p[|dir| + 1..] == name;
    assert p[|dir|] == '/';
    BasenameAt(p, |dir| + 1);
  }
}
