/** The story-to-speech service: an LLM writes a short story on a topic, the
    TTS model reads it into a WAV file in `generated_audio`, and pydub turns
    that into an MP3 named after the topic and the time. */
module SpeechService {
  import opened Base
  import opened Text
  import opened Documents

  // ------------------------------------------------------------ the story

  /** The continuation-line indentation of the story template. */
  const StoryIndent: string := "                "

  /** The part of the template before the topic. */
  const StoryHead: string :=
    "You are a creative storyteller. Generate an engaging short story (200-300 words) based on the following topic.\n"
    + StoryIndent + "Make the story captivating, well-structured with beginning, middle, and end.\n"
    + StoryIndent + "Use vivid descriptions suitable for audio narration.\n"
    + StoryIndent + "Keep the language clear and easy to listen to.\n"
    + "\n"
    + StoryIndent + "Topic: "

  /** The part of the template after the topic. */
  const StoryTail: string := "\n\n" + StoryIndent + "Story:"

  /** The story template with `{topic}` filled in. */
  function StoryPrompt(topic: string): string
  {
    StoryHead + topic + StoryTail
  }

  /** The topic is inserted whole, at a fixed place, whatever it contains. */
  lemma StoryPromptTopic(topic: string)
    ensures |StoryPrompt(topic)| == |StoryHead| + |topic| + |StoryTail|
    ensures StoryPrompt(topic)[|StoryHead|..|StoryHead| + |topic|] == topic
    ensures StoryPrompt(topic)[..|StoryHead|] == StoryHead
    ensures StoryPrompt(topic)[|StoryHead| + |topic|..] == StoryTail
  {
    var t := StoryPrompt(topic);
    assert t[|StoryHead|..|StoryHead| + |topic|] == topic;
    assert t[..|StoryHead|] == StoryHead;
    assert t[|StoryHead| + |topic|..] == StoryTail;
  }

  /** The story in the model's reply: its content without surrounding
      whitespace; a failed call is an exception that propagates. */
  function StoryOf(reply: Reply): (r: Result<string>)
    ensures reply.Failure? <==> r.Err?
  {
    match reply
    case Failure => Err(Raised("llm"))
    case Content(c) => Ok(Strip(c))
  }

  /** The story never starts or ends with whitespace, and is the reply's
      content whole apart from that whitespace. */
  lemma StoryOfSpec(reply: Reply)
    ensures var r := StoryOf(reply);
      && (r.Ok? && r.value != [] ==> !IsSpace(r.value[0]) && !IsSpace(r.value[|r.value| - 1]))
      && (r.Ok? ==> r.value <= reply.content[|reply.content| - |StripStart(reply.content)|..])
  {
    if reply.Content? {
      var c := reply.content;
      var a := |c| - |StripStart(c)|;
      var story := Strip(c);
      assert story == c[a..a + |story|];
      assert c[a..][..|story|] == c[a..a + |story|];
    }
  }

  /** `generate_story`: one call with the story prompt. */
  function GenerateStory(llm: Llm, topic: string): Result<string>
  {
    StoryOf(llm(PlainPrompt(StoryPrompt(topic))))
  }

  // ------------------------------------------------------------ file names

  /** `topic[:30]` with every character that is not alphanumeric replaced
      by `_`. */
  function SafeTopic(topic: string): string
  {
    var t := Take(topic, 30);
    seq(|t|, i requires 0 <= i < |t| => if IsAlnum(t[i]) then t[i] else '_')
  }

  /** `safe_topic` is as long as the topic up to 30 characters, consists of
      alphanumerics and `_` only, and keeps exactly the topic's alphanumeric
      characters in place. */
  lemma SafeTopicSpec(topic: string)
    ensures |SafeTopic(topic)| == Min(30, |topic|)
    ensures forall i :: 0 <= i < |SafeTopic(topic)| ==> IsWordChar(SafeTopic(topic)[i])
    ensures forall i :: 0 <= i < |SafeTopic(topic)| ==>
      SafeTopic(topic)[i] == (if IsAlnum(topic[i]) then topic[i] else '_')
  {
    var t := Take(topic, 30);
    assert forall i :: 0 <= i < |t| ==> t[i] == topic[i];
  }

  /** A moment as `datetime.now()` reports it. */
  datatype DateTime = DateTime(year: nat, month: nat, day: nat, hour: nat, minute: nat, second: nat)

  predicate ValidDateTime(t: DateTime)
  {
    1 <= t.year <= 9999 && 1 <= t.month <= 12 && 1 <= t.day <= 31
    && t.hour < 24 && t.minute < 60 && t.second < 60
  }

  /** `n` in decimal, zero-filled on the left to `width` digits. */
  function Padded(n: nat, width: nat): (r: string)
    ensures AllDigits(r) && |r| >= width
    ensures |NatToString(n)| <= width ==> |r| == width
  {
    var s := NatToString(n);
    if |s| >= width then s else seq(width - |s|, _ => '0') + s
  }

  /** `strftime("%Y%m%d_%H%M%S")` */
  function Timestamp(t: DateTime): string
  {
    Padded(t.year, 4) + Padded(t.month, 2) + Padded(t.day, 2) + "_"
    + Padded(t.hour, 2) + Padded(t.minute, 2) + Padded(t.second, 2)
  }

  lemma NatToStringShort(n: nat, width: nat, bound: nat)
    requires n < bound && (bound == 10 || bound == 100 || bound == 10000)
    requires width == (if bound == 10 then 1 else if bound == 100 then 2 else 4)
    ensures |NatToString(n)| <= width
  {
    if n >= 10 {
      if bound == 10000 {
        if n >= 1000 {
          assert NatToString(n) == NatToString(n / 10) + [DigitChar(n % 10)];
          assert NatToString(n / 10) == NatToString(n / 100) + [DigitChar((n / 10) % 10)];
          assert NatToString(n / 100) == NatToString(n / 1000) + [DigitChar((n / 100) % 10)];
        } else if n >= 100 {
          assert NatToString(n) == NatToString(n / 10) + [DigitChar(n % 10)];
          assert NatToString(n / 10) == NatToString(n / 100) + [DigitChar((n / 10) % 10)];
        } else {
          assert NatToString(n) == NatToString(n / 10) + [DigitChar(n % 10)];
        }
      } else {
        assert NatToString(n) == NatToString(n / 10) + [DigitChar(n % 10)];
      }
    }
  }

  /** The timestamp is digits and one `_`, so it holds no `.`; for a real
      moment it is fifteen characters with the `_` at index 8. */
  lemma TimestampSpec(t: DateTime)
    ensures forall i :: 0 <= i < |Timestamp(t)| ==> IsWordChar(Timestamp(t)[i])
    ensures ValidDateTime(t) ==>
      (|Timestamp(t)| == 15 && Timestamp(t)[8] == '_'
       && forall i :: 0 <= i < 15 && i != 8 ==> IsDigit(Timestamp(t)[i]))
  {
    var a, b, c := Padded(t.year, 4), Padded(t.month, 2), Padded(t.day, 2);
    var d, e, f := Padded(t.hour, 2), Padded(t.minute, 2), Padded(t.second, 2);
    var s := a + b + c + "_" + d + e + f;
    assert Timestamp(t) == s;
    forall i | 0 <= i < |s| ensures IsWordChar(s[i]) {
      if i < |a + b + c| {
        assert (a + b + c)[i] == s[i];
        if i < |a| { assert IsDigit(a[i]); } else if i < |a + b| { assert IsDigit(b[i - |a|]); } else { assert IsDigit(c[i - |a + b|]); }
      } else if i > |a + b + c| {
        var j := i - |a + b + c| - 1;
        assert (d + e + f)[j] == s[i];
        if j < |d| { assert IsDigit(d[j]); } else if j < |d + e| { assert IsDigit(e[j - |d|]); } else { assert IsDigit(f[j - |d + e|]); }
      }
    }
    if ValidDateTime(t) {
      NatToStringShort(t.year, 4, 10000);
      NatToStringShort(t.month, 2, 100);
      NatToStringShort(t.day, 2, 100);
      NatToStringShort(t.hour, 2, 100);
      NatToStringShort(t.minute, 2, 100);
      NatToStringShort(t.second, 2, 100);
      forall i | 0 <= i < 15 && i != 8 ensures IsDigit(s[i]) {
        assert IsWordChar(s[i]);
      }
    }
  }

  const AudioDir: string := "generated_audio"

  /** `f"story_{safe_topic}_{timestamp}.mp3"` */
  function AudioFileName(topic: string, now: DateTime): string
  {
    "story_" + SafeTopic(topic) + "_" + Timestamp(now) + ".mp3"
  }

  /** `os.path.join(AUDIO_DIR, audio_filename)` on POSIX. */
  function AudioPath(fileName: string): string
  {
    AudioDir + "/" + fileName
  }

  /** Python's `s.replace(pat, rep)`: every occurrence, left to right,
      without overlaps. */
  function ReplaceAll(s: string, pat: string, rep: string): string
    requires pat != []
    decreases |s|
  {
    if |s| < |pat| then s
    else if s[..|pat|] == pat then rep + ReplaceAll(s[|pat|..], pat, rep)
    else [s[0]] + ReplaceAll(s[1..], pat, rep)
  }

  /** When the first character of `pat` occurs nowhere in `s`, replacing
      `pat` in `s + pat` changes only that suffix. */
  lemma {:induction false} ReplaceSuffix(s: string, pat: string, rep: string)
    requires pat != [] && pat[0] !in s
    ensures ReplaceAll(s + pat, pat, rep) == s + rep
  {
    if s == [] {
      assert (s + pat)[..|pat|] == pat;
      assert (s + pat)[|pat|..] == [];
    } else {
      var t := s + pat;
      assert t[..|pat|][0] == s[0] != pat[0];
      assert t[..|pat|] != pat;
      assert ReplaceAll(t, pat, rep) == [t[0]] + ReplaceAll(t[1..], pat, rep);
      assert t[1..] == s[1..] + pat;
      ReplaceSuffix(s[1..], pat, rep);
      assert s == [s[0]] + s[1..];
    }
  }

  /** The name without its extension. */
  function AudioStem(topic: string, now: DateTime): string
  {
    "story_" + SafeTopic(topic) + "_" + Timestamp(now)
  }

  /** Neither the directory, the fixed parts, the safe topic nor the
      timestamp holds a `.`, so `.replace(".mp3", ".wav")` rewrites only the
      extension, of the name and of the path alike. */
  lemma WavOnlyChangesExtension(topic: string, now: DateTime)
    ensures AudioFileName(topic, now) == AudioStem(topic, now) + ".mp3"
    ensures ReplaceAll(AudioFileName(topic, now), ".mp3", ".wav") == AudioStem(topic, now) + ".wav"
    ensures ReplaceAll(AudioPath(AudioFileName(topic, now)), ".mp3", ".wav") == AudioPath(AudioStem(topic, now)) + ".wav"
  {
    var stem := AudioStem(topic, now);
    SafeTopicSpec(topic);
    TimestampSpec(now);
    var safe, ts := SafeTopic(topic), Timestamp(now);
    assert stem == "story_" + safe + "_" + ts;
    forall i | 0 <= i < |stem| ensures stem[i] != '.' {
      if 6 <= i < 6 + |safe| {
        assert stem[i] == safe[i - 6];
      } else if i > 6 + |safe| {
        assert stem[i] == ts[i - 7 - |safe|];
      }
    }
    assert AudioFileName(topic, now) == stem + ".mp3";
    ReplaceSuffix(stem, ".mp3", ".wav");
    var dirStem := AudioDir + "/" + stem;
    forall i | 0 <= i < |dirStem| ensures dirStem[i] != '.' {
      if i >= 16 {
        assert dirStem[i] == stem[i - 16];
      }
    }
    assert AudioPath(AudioFileName(topic, now)) == dirStem + ".mp3";
    ReplaceSuffix(dirStem, ".mp3", ".wav");
  }

  // ------------------------------------------------------------ conversion

  /** How the pydub step goes: converted, not installed (`ImportError`,
      caught), or raising some other exception (propagates). */
  datatype Pydub = PydubConverted | PydubMissing | PydubFailed

  /** `{"audio_file": ..., "audio_path": ...}` */
  datatype AudioInfo = AudioInfo(audioFile: string, audioPath: string)

  /** `{"story": ..., "audio_file": ..., "audio_path": ...}` */
  datatype StoryInfo = StoryInfo(story: string, audioFile: string, audioPath: string)

  /** The path the WAV is written to. */
  function WavPath(topic: string, now: DateTime): string
  {
    AudioPath(AudioStem(topic, now)) + ".wav"
  }

  /** What `convert_text_to_audio` returns, given whether synthesis
      succeeded and how the pydub step went: the MP3 name and path, or the
      WAV name and path when pydub is missing. */
  function Converted(synthesized: bool, pydub: Pydub, topic: string, now: DateTime): Result<AudioInfo>
  {
    var stem := AudioStem(topic, now);
    if !synthesized then Err(Raised("tts"))
    else match pydub
      case PydubConverted => Ok(AudioInfo(stem + ".mp3", AudioPath(stem + ".mp3")))
      case PydubMissing => Ok(AudioInfo(stem + ".wav", AudioPath(stem + ".wav")))
      case PydubFailed => Err(Raised("pydub"))
  }

  /** A returned file lies in the audio directory under the name returned
      with it, and that name is `story_<safe topic>_<timestamp>` with the
      extension `.mp3` exactly when pydub converted it and `.wav` exactly
      when pydub is missing; the WAV written is that file's WAV. */
  lemma ConvertedSpec(synthesized: bool, pydub: Pydub, topic: string, now: DateTime)
    ensures var r := Converted(synthesized, pydub, topic, now);
      var stem := "story_" + SafeTopic(topic) + "_" + Timestamp(now);
      && (r.Ok? <==> synthesized && !pydub.PydubFailed?)
      && (r.Ok? ==> r.value.audioPath == AudioDir + "/" + r.value.audioFile)
      && (r.Ok? && pydub.PydubConverted? ==> r.value.audioFile == stem + ".mp3")
      && (r.Ok? && pydub.PydubMissing? ==> r.value.audioFile == stem + ".wav" && r.value.audioPath == WavPath(topic, now))
  {
    var stem := AudioStem(topic, now);
    assert AudioPath(stem + ".wav") == AudioPath(stem) + ".wav";
  }

  /** The files in the audio directory after `convert_text_to_audio`:
      unchanged when synthesis fails; the MP3 in place of the WAV when
      pydub converts it; the WAV left behind otherwise. */
  function AudioFiles(files: set<string>, synthesized: bool, pydub: Pydub, topic: string, now: DateTime): set<string>
  {
    if !synthesized then files
    else if pydub.PydubConverted? then files + {AudioPath(AudioFileName(topic, now))} - {WavPath(topic, now)}
    else files + {WavPath(topic, now)}
  }

  /** The MP3's path and the WAV's path share the stem and differ in the
      extension. */
  lemma Mp3PathNotWav(topic: string, now: DateTime)
    ensures AudioPath(AudioFileName(topic, now)) == AudioPath(AudioStem(topic, now)) + ".mp3"
    ensures AudioPath(AudioFileName(topic, now)) != WavPath(topic, now)
  {
    var base := AudioPath(AudioStem(topic, now));
    var a, w := AudioPath(AudioFileName(topic, now)), WavPath(topic, now);
    assert a == base + ".mp3" && w == base + ".wav";
    assert a[|base| + 1] == 'm' != w[|base| + 1];
  }

  /** Every path a successful conversion returns is among the files it
      leaves behind, and nothing but that file and the WAV is touched. */
  lemma AudioFilesSpec(files: set<string>, synthesized: bool, pydub: Pydub, topic: string, now: DateTime)
    ensures var r := Converted(synthesized, pydub, topic, now);
      var after := AudioFiles(files, synthesized, pydub, topic, now);
      && (r.Ok? ==> r.value.audioPath in after)
      && (forall f :: f != WavPath(topic, now) && f != AudioPath(AudioFileName(topic, now)) ==> (f in after <==> f in files))
  {
    var stem := AudioStem(topic, now);
    Mp3PathNotWav(topic, now);
    assert AudioPath(stem + ".wav") == WavPath(topic, now);
    assert AudioPath(stem + ".mp3") == AudioPath(AudioFileName(topic, now));
  }

  class Speech {
    /** `gemini_llm` */
    const llm: Llm
    /** `tts.tts_to_file(text=..., file_path=...)`: whether it succeeds. */
    const tts: (string, string) -> bool
    /** The paths of the files in `generated_audio`. */
    var files: set<string>

    constructor(llm: Llm, tts: (string, string) -> bool, files: set<string>)
      ensures this.llm == llm && this.tts == tts && this.files == files
    {
      this.llm := llm;
      this.tts := tts;
      this.files := files;
    }

    /** `convert_text_to_audio`: writes the WAV, then either converts it to
        the MP3 and removes it, or keeps it under the WAV name; a failed
        conversion leaves the WAV behind. */
    method ConvertTextToAudio(text: string, topic: string, now: DateTime, pydub: Pydub) returns (r: Result<AudioInfo>)
      modifies this
      ensures r == Converted(tts(text, WavPath(topic, now)), pydub, topic, now)
      ensures files == AudioFiles(old(files), tts(text, WavPath(topic, now)), pydub, topic, now)
    {
      var safeTopic := SafeTopic(topic);
      var audioFilename := "story_" + safeTopic + "_" + Timestamp(now) + ".mp3";
      var audioPath := AudioDir + "/" + audioFilename;
      WavOnlyChangesExtension(topic, now);
      ghost var stem := AudioStem(topic, now);
      assert audioFilename == AudioFileName(topic, now) == stem + ".mp3";
      assert audioPath == AudioPath(AudioFileName(topic, now));
      var wavPath := ReplaceAll(audioPath, ".mp3", ".wav");
      assert wavPath == WavPath(topic, now);
      if !tts(text, wavPath) {
        return Err(Raised("tts"));
      }
      files := files + {wavPath};
      match pydub {
        case PydubConverted =>
          files := files + {audioPath};
          files := files - {wavPath};
        case PydubMissing =>
          audioFilename := ReplaceAll(audioFilename, ".mp3", ".wav");
          audioPath := ReplaceAll(audioPath, ".mp3", ".wav");
          assert audioPath == AudioPath(stem + ".wav");
        case PydubFailed =>
          return Err(Raised("pydub"));
      }
      r := Ok(AudioInfo(audioFilename, audioPath));
    }

    /** `generate_story_with_audio`: the story together with the file the
        conversion returned; `session_id` plays no part. */
    method GenerateStoryWithAudio(topic: string, sessionId: Option<string>, now: DateTime, pydub: Pydub)
      returns (r: Result<StoryInfo>)
      modifies this
      ensures var story := GenerateStory(llm, topic);
        && (story.Err? ==> r == Err(story.error) && files == old(files))
        && (story.Ok? ==> var audio := Converted(tts(story.value, WavPath(topic, now)), pydub, topic, now);
              && files == AudioFiles(old(files), tts(story.value, WavPath(topic, now)), pydub, topic, now)
              && (audio.Err? ==> r == Err(audio.error))
              && (audio.Ok? ==> r == Ok(StoryInfo(story.value, audio.value.audioFile, audio.value.audioPath))))
    {
      var story := GenerateStory(llm, topic);
      if story.Err? {
        return Err(story.error);
      }
      var audioInfo := ConvertTextToAudio(story.value, topic, now, pydub);
      if audioInfo.Err? {
        return Err(audioInfo.error);
      }
      r := Ok(StoryInfo(story.value, audioInfo.value.audioFile, audioInfo.value.audioPath));
    }
  }
}
