/** The audio player: the clock text under the seek bar, the ±10 s skip
    buttons, play/pause, per-section speech generation and the adoption of a
    new audio URL from the page. */
module AudioPlayerView {
  import opened Text
  import opened Artifacts

  // ---------------------------------------------------------------------------
  // Clock text

  /** `formatTime`: floor(t / 60), a colon, then floor(t % 60) padded to two
      digits. JavaScript's `%` on a non-negative time is t - 60 * floor(t / 60). */
  function FormatTime(t: real): (r: string)
    requires t >= 0.0
  {
    var minutes := (t / 60.0).Floor;
    var seconds := (t - 60.0 * (minutes as real)).Floor;
    FloorParts(t);
    NatToString(minutes) + ":" + SecondsField(seconds)
  }

  /** Both parts of the clock are those of the whole seconds. */
  lemma FloorParts(t: real)
    requires t >= 0.0
    ensures (t / 60.0).Floor == t.Floor / 60
    ensures (t - 60.0 * ((t / 60.0).Floor as real)).Floor == t.Floor % 60
  {
    var w := t.Floor;
    var m := w / 60;
    assert 60 * m <= w < 60 * m + 60;
    assert (w as real) <= t < (w as real) + 1.0;
    assert (60 * m) as real <= t < (60 * m + 60) as real;
    assert (m as real) <= t / 60.0 < (m as real) + 1.0;
    assert (t / 60.0).Floor == m;
    var rest := t - 60.0 * (m as real);
    assert ((w - 60 * m) as real) <= rest < ((w - 60 * m) as real) + 1.0;
  }

  /** Reads a clock text back: minutes before the colon, seconds after it. */
  function ParseTime(s: string): Option<nat>
  {
    match IndexOf(s, ":", 0)
    case None => None
    case Some(c) =>
      var mm := s[..c];
      var ss := s[c + 1..];
      if AllDigits(mm) && AllDigits(ss) then Some(ClockValue(mm, ss)) else None
  }

  /** Minutes and seconds fields as a number of seconds. */
  function ClockValue(mm: string, ss: string): nat
    requires AllDigits(mm) && AllDigits(ss)
  {
    60 * ParseNat(mm) + ParseNat(ss)
  }

  /** The clock text shows the whole seconds elapsed, with a two-digit seconds
      field: reading it back gives floor(t). */
  lemma FormatTimeRoundTrip(t: real)
    requires t >= 0.0
    ensures ParseTime(FormatTime(t)) == Some(t.Floor as nat)
    ensures var s := FormatTime(t); exists c :: 0 <= c < |s| && s[c] == ':' && |s| - c - 1 == 2
  {
    FloorParts(t);
    var m: nat := t.Floor / 60;
    var sec: nat := t.Floor % 60;
    var mm := NatToString(m);
    var ss := SecondsField(sec);
    var s := mm + ":" + ss;
    assert FormatTime(t) == s;
    SecondsFieldReadsBack(sec);
    ParseNatToString(m);
    assert AllDigits(mm);
    ParseTimeOf(mm, ss);
    assert ClockValue(mm, ss) == 60 * m + sec;
    assert s[|mm|] == ':';
  }

  /** The seconds after the colon: two digits, a leading zero below ten. */
  function SecondsField(sec: nat): string
  {
    (if sec < 10 then "0" else "") + NatToString(sec)
  }

  lemma SecondsFieldReadsBack(sec: nat)
    requires sec < 60
    ensures var ss := SecondsField(sec);
      |ss| == 2 && AllDigits(ss) && ParseNat(ss) == sec
  {
    ParseNatToString(sec);
    if sec < 10 {
      ParseNatLeadingZero(NatToString(sec));
    }
  }

  /** Two digit runs around a colon read back as minutes and seconds. */
  lemma ParseTimeOf(mm: string, ss: string)
    requires AllDigits(mm) && AllDigits(ss)
    ensures ParseTime(mm + ":" + ss) == Some(ClockValue(mm, ss))
  {
    var s := mm + ":" + ss;
    FirstColon(mm, ss);
    assert s[..|mm|] == mm;
    assert s[|mm| + 1..] == ss;
  }

  /** After a run of digits, the first colon is the one that follows them. */
  lemma FirstColon(digits: string, rest: string)
    requires AllDigits(digits)
    ensures IndexOf(digits + ":" + rest, ":", 0) == Some(|digits|)
  {
    var s := digits + ":" + rest;
    assert StartsAt(s, |digits|, ":") by { assert s[|digits|..|digits| + 1] == ":"; }
    forall j | 0 <= j < |digits|
      ensures !StartsAt(s, j, ":")
    {
      StartsAtChar(s, j, ':');
      assert s[j] == digits[j];
    }
  }

  // ---------------------------------------------------------------------------
  // Skips and speech text

  /** Skip back: ten seconds earlier, but not before the start. */
  function SkipBack(t: real): (r: real)
    ensures r >= 0.0 && r >= t - 10.0
    ensures r == 0.0 || r == t - 10.0
  {
    if t - 10.0 > 0.0 then t - 10.0 else 0.0
  }

  /** Skip forward: ten seconds later, but not past the end. */
  function SkipForward(t: real, duration: real): (r: real)
    ensures r <= duration && r <= t + 10.0
    ensures r == duration || r == t + 10.0
  {
    if duration < t + 10.0 then duration else t + 10.0
  }

  /** Within [0, duration] both skips stay within [0, duration]. */
  lemma SkipsStayInTrack(t: real, duration: real)
    requires 0.0 <= t <= duration
    ensures 0.0 <= SkipBack(t) <= duration
    ensures 0.0 <= SkipForward(t, duration) <= duration
  {
  }

  /** The text sent for speech: title, summary, then the key points. */
  function SpeechText(s: Section): string
  {
    s.section + ". " + s.summary + ". Key points: " + Join(s.keyPoints, ". ")
  }

  /** The speech text of a section reads its key points in order: the text is
      the text without the last point, a separator, then the last point. */
  lemma SpeechTextAppendPoint(s: Section, p: string)
    requires |s.keyPoints| > 0
    ensures SpeechText(Section(s.section, s.keyPoints + [p], s.summary)) == SpeechText(s) + ". " + p
  {
    JoinConcat(s.keyPoints, [p], ". ");
  }

  /** The URL-prop effect: a new URL is taken only when it is non-empty and
      differs from the current one. */
  function AdoptedUrl(propUrl: string, current: string): (r: string)
    ensures r == propUrl || r == current
    ensures r != current <==> propUrl != "" && propUrl != current
  {
    if propUrl != "" && propUrl != current then propUrl else current
  }

  lemma AdoptedUrlIdempotent(propUrl: string, current: string)
    ensures AdoptedUrl(propUrl, AdoptedUrl(propUrl, current)) == AdoptedUrl(propUrl, current)
  {
  }

  // ---------------------------------------------------------------------------
  // The component

  /** How the speech generator's promise settles; a null URL is the empty one. */
  datatype SpeechOutcome = Resolved(url: string) | Rejected(message: string)

  /** The failure toast's description: a falsy URL is thrown as
      "Failed to generate audio", a rejection keeps its own message. */
  function FailureMessage(outcome: SpeechOutcome): string
  {
    if outcome.Rejected? then outcome.message else "Failed to generate audio"
  }

  class AudioPlayer {
    var isPlaying: bool
    var currentTime: real
    var duration: real
    var isLoading: bool
    var currentAudioUrl: string
    var selectedSection: nat
    /** Whether the audio element exists (it is created on mount). */
    var hasElement: bool

    ghost predicate Valid()
      reads this
    {
      currentTime >= 0.0
    }

    constructor (audioUrl: string)
      ensures Valid() && currentAudioUrl == audioUrl
      ensures !isPlaying && currentTime == 0.0 && duration == 0.0 && !isLoading && selectedSection == 0
      ensures hasElement
    {
      isPlaying := false;
      currentTime := 0.0;
      duration := 0.0;
      isLoading := false;
      currentAudioUrl := audioUrl;
      selectedSection := 0;
      hasElement := true;
    }

    /** The playing flag flips whether or not `play()` later rejects; without
      an audio element nothing happens. */
    method TogglePlayPause()
      requires Valid()
      modifies this`isPlaying
      ensures Valid()
      ensures isPlaying == if hasElement then !old(isPlaying) else old(isPlaying)
    {
      if !hasElement {
        return;
      }
      isPlaying := !isPlaying;
    }

    method SkipBackPressed()
      requires Valid()
      modifies this`currentTime
      ensures Valid()
      ensures currentTime == if hasElement then SkipBack(old(currentTime)) else old(currentTime)
    {
      if hasElement {
        currentTime := SkipBack(currentTime);
      }
    }

    /** Skip forward; a position past a known duration is never produced. */
    method SkipForwardPressed()
      requires Valid() && duration >= 0.0
      modifies this`currentTime
      ensures Valid()
      ensures currentTime == if hasElement then SkipForward(old(currentTime), duration) else old(currentTime)
      ensures old(currentTime) <= duration ==> currentTime <= duration
    {
      if hasElement {
        currentTime := SkipForward(currentTime, duration);
      }
    }

    /** A new `audioUrl` prop. */
    method PropUrlChanged(audioUrl: string)
      modifies this`currentAudioUrl
      ensures currentAudioUrl == AdoptedUrl(audioUrl, old(currentAudioUrl))
    {
      if audioUrl != "" && audioUrl != currentAudioUrl {
        currentAudioUrl := audioUrl;
      }
    }

    /** The seek bar's value becomes the position. */
    method Seek(time: real)
      requires Valid() && time >= 0.0
      modifies this`currentTime
      ensures Valid()
      ensures currentTime == if hasElement then time else old(currentTime)
    {
      if !hasElement {
        return;
      }
      currentTime := time;
    }

    /** The element's `loadedmetadata`, `timeupdate` and `ended` events. */
    method MetadataLoaded(elementDuration: real)
      requires Valid()
      modifies this`duration
      ensures Valid() && duration == elementDuration
    {
      duration := elementDuration;
    }

    method TimeUpdated(elementTime: real)
      requires Valid() && elementTime >= 0.0
      modifies this`currentTime
      ensures Valid() && currentTime == elementTime
    {
      currentTime := elementTime;
    }

    method Ended()
      requires Valid()
      modifies this`isPlaying
      ensures Valid() && !isPlaying
    {
      isPlaying := false;
    }

    /** Speech for the `index`-th section. Without content or a generator it
      does nothing. Otherwise playback stops and rewinds, the section's speech
      text is sent (returned as `spoken`), and the generator's outcome
      decides: a non-empty URL is swapped in, the section selected and the
      half-second autoplay scheduled; a null or empty URL, or a rejection, leaves
      both as they were and raises the failure toast with the error's message.
      Loading ends either way. */
    method GenerateAudioForSection(index: nat, studyContent: Option<seq<Section>>, hasGenerator: bool,
                                   outcome: SpeechOutcome)
      returns (spoken: Option<string>, failure: Option<string>, autoplayScheduled: bool)
      requires Valid()
      requires studyContent.Some? ==> index < |studyContent.value|
      modifies this
      ensures Valid() && hasElement == old(hasElement) && duration == old(duration)
      ensures studyContent.None? || !hasGenerator ==>
        spoken == None && failure == None && !autoplayScheduled &&
        isPlaying == old(isPlaying) && currentTime == old(currentTime) &&
        isLoading == old(isLoading) && currentAudioUrl == old(currentAudioUrl) &&
        selectedSection == old(selectedSection)
      ensures studyContent.Some? && hasGenerator ==>
        spoken == Some(SpeechText(studyContent.value[index])) &&
        !isPlaying && !isLoading &&
        currentTime == (if old(hasElement) then 0.0 else old(currentTime)) &&
        (autoplayScheduled <==> failure.None?) &&
        (failure.None? <==> outcome.Resolved? && outcome.url != "") &&
        (failure.None? ==> currentAudioUrl == outcome.url && selectedSection == index) &&
        (failure.Some? ==>
           (currentAudioUrl == old(currentAudioUrl) && selectedSection == old(selectedSection) &&
            failure.value == FailureMessage(outcome)))
    {
      failure, autoplayScheduled := None, false;
      if studyContent.None? || !hasGenerator {
        return None, None, false;
      }
      isLoading := true;
      isPlaying := false;
      if hasElement {
        currentTime := 0.0;
      }
      var section := studyContent.value[index];
      var textToSpeak := SpeechText(section);
      spoken := Some(textToSpeak);
      if outcome.Resolved? && outcome.url != "" {
        currentAudioUrl := outcome.url;
        selectedSection := index;
        autoplayScheduled := true;
      } else {
        failure := Some(FailureMessage(outcome));
      }
      isLoading := false;
    }

    /** The autoplay timer: playback starts if there is an element. */
    method AutoplayFired()
      requires Valid()
      modifies this`isPlaying
      ensures Valid() && isPlaying == (old(isPlaying) || hasElement)
    {
      if hasElement {
        isPlaying := true;
      }
    }
  }
}
