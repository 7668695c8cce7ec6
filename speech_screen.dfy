/** The story screen of the app: asks the backend for a story on a topic,
    then plays, pauses and resumes the returned audio and shows the playback
    position as `m:ss`. */
module SpeechScreen {
  import opened Base
  import opened Text

  // ------------------------------------------------------------ formatTime

  /** The whole seconds within the minute. */
  function Seconds(millis: nat): nat { (millis / 1000) % 60 }

  /** The whole minutes. */
  function Minutes(millis: nat): nat { millis / 60000 }

  /** `formatTime`: minutes, a colon, and the seconds zero-filled to two
      digits. */
  function FormatTime(millis: nat): string
  {
    var seconds := Seconds(millis);
    NatToString(Minutes(millis)) + ":" + (if seconds < 10 then "0" else "") + NatToString(seconds)
  }

  /** Minutes and seconds together are the whole seconds elapsed, with the
      seconds below a minute. */
  lemma ClockSpec(millis: nat)
    ensures Seconds(millis) < 60
    ensures Minutes(millis) * 60 + Seconds(millis) == millis / 1000
  {
    var q, a, b := millis / 1000, (millis / 1000) / 60, (millis / 1000) % 60;
    assert q == 60 * a + b;
    assert millis == 1000 * q + millis % 1000;
    assert millis == 60000 * a + (1000 * b + millis % 1000);
    assert 0 <= 1000 * b + millis % 1000 < 60000;
    DivBy60000(millis, a, 1000 * b + millis % 1000);
  }

  lemma DivBy60000(n: nat, q: nat, r: nat)
    requires n == 60000 * q + r && r < 60000
    ensures n / 60000 == q
  {
    var q', r' := n / 60000, n % 60000;
    assert n == 60000 * q' + r';
  }

  /** The seconds part of the display is exactly two digits. */
  function SecondsText(millis: nat): (r: string)
  {
    (if Seconds(millis) < 10 then "0" else "") + NatToString(Seconds(millis))
  }

  lemma {:induction false} NatToStringOfSmall(n: nat)
    requires n < 100
    ensures n < 10 ==> |NatToString(n)| == 1
    ensures n >= 10 ==> |NatToString(n)| == 2
  {
    if n >= 10 {
      assert NatToString(n) == NatToString(n / 10) + [DigitChar(n % 10)];
      assert n / 10 < 10;
    }
  }

  /** A leading zero does not change the value of a digit string. */
  lemma {:induction false} LeadingZero(t: string)
    requires AllDigits(t)
    ensures AllDigits("0" + t) && DigitsValue("0" + t) == DigitsValue(t)
  {
    var z := "0" + t;
    if t == [] {
      assert z[..|z| - 1] == [];
      assert DigitValue('0') == 0;
    } else {
      assert z[..|z| - 1] == "0" + t[..|t| - 1];
      assert z[|z| - 1] == t[|t| - 1];
      LeadingZero(t[..|t| - 1]);
    }
  }

  /** The index of the first `:` in `s`, or `|s|`. */
  function ColonIndex(s: string): (k: nat)
    ensures k <= |s| && (k < |s| ==> s[k] == ':')
    ensures forall i :: 0 <= i < k ==> s[i] != ':'
  {
    if s == [] then 0 else if s[0] == ':' then 0 else 1 + ColonIndex(s[1..])
  }

  /** Reads an `m:ss` display back as minutes and seconds. */
  function ParseClock(s: string): Option<(nat, nat)>
  {
    var k := ColonIndex(s);
    if k == |s| then None
    else match (ParseNat(s[..k]), ParseNat(s[k + 1..]))
      case (Some(m), Some(sec)) => Some((m, sec))
      case _ => None
  }

  /** The display is unambiguous: it reads back as the minutes and seconds
      it was made from, and its seconds part is two digits. */
  lemma FormatTimeRoundTrip(millis: nat)
    ensures ParseClock(FormatTime(millis)) == Some((Minutes(millis), Seconds(millis)))
    ensures |SecondsText(millis)| == 2 && AllDigits(SecondsText(millis))
  {
    var m, sec := NatToString(Minutes(millis)), Seconds(millis);
    var st := SecondsText(millis);
    var s := FormatTime(millis);
    assert s == m + ":" + st;
    ClockSpec(millis);
    NatToStringOfSmall(sec);
    if sec < 10 {
      LeadingZero(NatToString(sec));
    }
    assert forall i :: 0 <= i < |m| ==> s[i] == m[i] && IsDigit(m[i]);
    assert s[|m|] == ':';
    assert ColonIndex(s) == |m|;
    assert s[..|m|] == m;
    assert s[|m| + 1..] == st;
    ParseNatToString(Minutes(millis));
    ParseNatToString(sec);
  }

  // ------------------------------------------------------------ trim

  /** `s.trim()` in JavaScript. */
  function JsTrim(s: string): (r: string)
    decreases |s|
  {
    if s == [] then s
    else if IsJsSpace(s[0]) then JsTrim(s[1..])
    else if IsJsSpace(s[|s| - 1]) then JsTrim(s[..|s| - 1])
    else s
  }

  /** A topic is blank exactly when it is all whitespace. */
  lemma {:induction false} JsTrimEmpty(s: string)
    ensures JsTrim(s) == [] <==> forall i :: 0 <= i < |s| ==> IsJsSpace(s[i])
    decreases |s|
  {
    if s != [] {
      if IsJsSpace(s[0]) {
        JsTrimEmpty(s[1..]);
        assert forall i :: 1 <= i < |s| ==> s[i] == s[1..][i - 1];
      } else if IsJsSpace(s[|s| - 1]) {
        JsTrimEmpty(s[..|s| - 1]);
        assert !IsJsSpace(s[0]) && s[..|s| - 1][0] == s[0];
      }
    }
  }

  // ------------------------------------------------------------ playback

  /** An `Audio.Sound` created for a URL. */
  datatype Sound = Sound(uri: string)

  /** The playback part of the screen's state. */
  datatype Player = Player(sound: Option<Sound>, isPlaying: bool, position: int, duration: int)

  /** A message shown with `Toast.show`. */
  datatype Toast = Toast(kind: string, text1: string, text2: Option<string>)

  const PlaybackError: string := "Playback Error"

  /** What `toggleAudio` leaves behind: `createOk` says whether
      `Audio.Sound.createAsync` resolves, `callOk` whether the following
      `playAsync` or `pauseAsync` does; a rejection only shows a toast. */
  function Toggled(p: Player, audioUrl: string, createOk: bool, callOk: bool, error: string): (Player, seq<Toast>)
  {
    var fail := [Toast("error", PlaybackError, Some(error))];
    if audioUrl == "" then (p, [])
    else if p.sound.None? then
      if !createOk then (p, fail)
      else if !callOk then (p.(sound := Some(Sound(audioUrl))), fail)
      else (p.(sound := Some(Sound(audioUrl)), isPlaying := true), [])
    else if !callOk then (p, fail)
    else (p.(isPlaying := !p.isPlaying), [])
  }

  /** A playback status report. */
  datatype Status = Status(isLoaded: bool, positionMillis: int, durationMillis: Option<int>, didJustFinish: bool)

  /** The state after the playback listener handles `status`. */
  function Updated(p: Player, status: Status): Player
  {
    if !status.isLoaded then p
    else
      var q := p.(position := status.positionMillis,
                  duration := if status.durationMillis.Some? then status.durationMillis.value else 0);
      if status.didJustFinish then q.(isPlaying := false, sound := None, position := 0) else q
  }

  /** Toggling without an audio URL changes nothing. With a loaded sound
      and a call that resolves, toggling flips `isPlaying` and touches
      nothing else, so two toggles restore the state. Without a sound, a
      successful toggle loads the URL and plays it. */
  lemma ToggledSpec(p: Player, audioUrl: string, createOk: bool, error: string)
    ensures Toggled(p, "", createOk, true, error) == (p, [])
    ensures p.sound.Some? ==>
      && Toggled(p, audioUrl, createOk, true, error).0 == (if audioUrl == "" then p else p.(isPlaying := !p.isPlaying))
      && Toggled(Toggled(p, audioUrl, createOk, true, error).0, audioUrl, createOk, true, error).0 == p
    ensures p.sound.None? && audioUrl != "" && createOk ==>
      Toggled(p, audioUrl, createOk, true, error).0 == p.(sound := Some(Sound(audioUrl)), isPlaying := true)
  {
  }

  /** A finished sound is dropped and rewound, so the next toggle loads
      the audio again and plays it from the listener's next report. */
  lemma FinishThenToggle(p: Player, status: Status, audioUrl: string, error: string)
    requires status.isLoaded && status.didJustFinish && audioUrl != ""
    ensures var q := Updated(p, status);
      && !q.isPlaying && q.sound.None? && q.position == 0
      && Toggled(q, audioUrl, true, true, error).0.isPlaying
      && Toggled(q, audioUrl, true, true, error).0.sound == Some(Sound(audioUrl))
  {
  }

  // ------------------------------------------------------------ the screen

  /** What the story endpoint answers: the story, its audio URL and a
      message, or a rejection with an error message. */
  datatype StoryReply = StoryOk(story: string, audioUrl: string, message: string) | StoryFailed(error: string)

  const EmptyTopicHint: string := "Please enter a story topic"

  const StoryFailure: string := "Failed to generate story"

  class Screen {
    var topic: string
    var story: string
    var audioUrl: string
    var loadingTTS: bool
    var sound: Option<Sound>
    var isPlaying: bool
    var position: int
    var duration: int
    /** Every toast shown, in order. */
    var toasts: seq<Toast>
    const sessionId: string

    function PlayerState(): Player
      reads this
    {
      Player(sound, isPlaying, position, duration)
    }

    /** The initial `useState` values. */
    constructor(sessionId: string)
      ensures topic == "" && story == "" && audioUrl == "" && !loadingTTS
      ensures PlayerState() == Player(None, false, 0, 0) && toasts == []
      ensures this.sessionId == sessionId
    {
      topic, story, audioUrl, loadingTTS := "", "", "", false;
      sound, isPlaying, position, duration := None, false, 0, 0;
      toasts := [];
      this.sessionId := sessionId;
    }

    /** The generate button is enabled when nothing is loading and the
        topic is not blank. */
    predicate GenerateEnabled()
      reads this
    {
      !loadingTTS && JsTrim(topic) != ""
    }

    /** `handleGenerateStory`, with `api` standing for `generateStory`. A
        blank topic only shows a hint. Otherwise the old story and URL are
        cleared, then replaced by the reply's or left empty on failure, and
        loading ends either way. */
    method HandleGenerateStory(api: (string, string) -> StoryReply)
      modifies this
      ensures JsTrim(topic) == "" ==>
        && toasts == old(toasts) + [Toast("info", EmptyTopicHint, None)]
        && story == old(story) && audioUrl == old(audioUrl) && loadingTTS == old(loadingTTS)
      ensures JsTrim(topic) != "" ==>
        (!loadingTTS &&
         match api(topic, sessionId)
         case StoryOk(s, u, m) => story == s && audioUrl == u && toasts == old(toasts) + [Toast("success", m, None)]
         case StoryFailed(e) => story == "" && audioUrl == "" && toasts == old(toasts) + [Toast("error", StoryFailure, Some(e))])
      ensures topic == old(topic) && PlayerState() == old(PlayerState())
    {
      if JsTrim(topic) == "" {
        toasts := toasts + [Toast("info", EmptyTopicHint, None)];
        return;
      }
      story := "";
      audioUrl := "";
      loadingTTS := true;
      var data := api(topic, sessionId);
      match data {
        case StoryOk(s, u, m) =>
          story := s;
          audioUrl := u;
          toasts := toasts + [Toast("success", m, None)];
        case StoryFailed(e) =>
          toasts := toasts + [Toast("error", StoryFailure, Some(e))];
      }
      loadingTTS := false;
    }

    /** `toggleAudio` */
    method ToggleAudio(createOk: bool, callOk: bool, error: string)
      modifies this
      ensures (PlayerState(), toasts) == (Toggled(old(PlayerState()), audioUrl, createOk, callOk, error).0,
                                          old(toasts) + Toggled(old(PlayerState()), audioUrl, createOk, callOk, error).1)
      ensures topic == old(topic) && story == old(story) && audioUrl == old(audioUrl) && loadingTTS == old(loadingTTS)
    {
      assert toasts + [] == toasts;
      if audioUrl == "" {
        return;
      }
      if sound.None? {
        if !createOk {
          toasts := toasts + [Toast("error", PlaybackError, Some(error))];
          return;
        }
        var newSound := Sound(audioUrl);
        sound := Some(newSound);
        if !callOk {
          toasts := toasts + [Toast("error", PlaybackError, Some(error))];
          return;
        }
        isPlaying := true;
        assert toasts + [] == toasts;
      } else {
        if !callOk {
          toasts := toasts + [Toast("error", PlaybackError, Some(error))];
          return;
        }
        if isPlaying {
          isPlaying := false;
        } else {
          isPlaying := true;
        }
      }
    }

    /** The playback listener. */
    method OnPlaybackStatusUpdate(status: Status)
      modifies this
      ensures PlayerState() == Updated(old(PlayerState()), status)
      ensures topic == old(topic) && story == old(story) && audioUrl == old(audioUrl)
      ensures loadingTTS == old(loadingTTS) && toasts == old(toasts)
    {
      if status.isLoaded {
        position := status.positionMillis;
        duration := if status.durationMillis.Some? then status.durationMillis.value else 0;
        if status.didJustFinish {
          isPlaying := false;
          sound := None;
          position := 0;
        }
      }
    }
  }
}
