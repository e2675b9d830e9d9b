/**
 * The watch-together feature of js/movie-party.js: the shared
 * `currentMovieState` record and `isMoviePartyActive` flag, the handlers
 * that update them on the host and on the participants, and `formatTime`.
 *
 * The video element, the upload and the playback-sync arithmetic are
 * outside the model; the element's `currentTime` comes in as a parameter.
 */
module MovieParty {
  import opened Optional

  /** `currentMovieState`. */
  datatype MovieState = MovieState(
    hasVideo: bool,
    fileName: Option<string>,
    isPlaying: bool,
    currentTime: real,
    host: Option<string>)

  /** The record `stopMovieParty` and `movie-party-ended` install. */
  const NoMovie: MovieState := MovieState(false, None, false, 0.0, None)

  /** What this page emits on the socket. */
  datatype MovieEvent =
    | MoviePlay(at: real)
    | MoviePause(at: real)
    | MovieSeek(at: real)
    | StopParty(host: string)

  class Party {
    const isHost: bool            // `isHostMovieParty`
    const userName: string
    var active: bool              // `isMoviePartyActive`
    var state: MovieState         // `currentMovieState`
    var sent: seq<MovieEvent>

    /**
     * On the host, the movie plays only once a video is loaded; so while the
     * host's movie plays, pausing or seeking always reaches the participants.
     */
    ghost predicate Valid()
      reads this
    {
      isHost ==> (state.isPlaying ==> state.hasVideo)
    }

    constructor (isHost: bool, userName: string)
      ensures Valid()
      ensures this.isHost == isHost && this.userName == userName
      ensures !active && state == NoMovie && sent == []
    {
      this.isHost := isHost;
      this.userName := userName;
      active, state, sent := false, NoMovie, [];
    }

    /** `loadMovieVideo(fileName)` on the host after a successful upload. */
    method LoadMovieVideo(fileName: string)
      requires Valid()
      modifies this`active, this`state
      ensures Valid()
      ensures active && state == MovieState(true, Some(fileName), false, 0.0, Some(userName))
    {
      active := true;
      state := MovieState(true, Some(fileName), false, 0.0, Some(userName));
    }

    /** `stopMovieParty()`: the host tells the server; everything is reset. */
    method StopMovieParty()
      requires Valid()
      modifies this`active, this`state, this`sent
      ensures Valid()
      ensures !active && state == NoMovie
      ensures sent == old(sent) + if isHost then [StopParty(userName)] else []
    {
      if isHost {
        sent := sent + [StopParty(userName)];
      }
      active := false;
      state := NoMovie;
    }

    /**
     * `handleMoviePartyToggle()`: start (pick a file, upload it, and load
     * it if the upload names the stored file) or stop.
     */
    method ToggleMovieParty(uploaded: Option<string>)
      requires Valid()
      modifies this`active, this`state, this`sent
      ensures Valid()
      ensures old(active) ==>
        !active && state == NoMovie && sent == old(sent) + if isHost then [StopParty(userName)] else []
      ensures !old(active) && uploaded.Some? ==>
        active && state == MovieState(true, uploaded, false, 0.0, Some(userName)) && sent == old(sent)
      ensures !old(active) && uploaded.None? ==> !active && state == old(state) && sent == old(sent)
    {
      if !active {
        if uploaded.Some? {
          LoadMovieVideo(uploaded.value);
        }
      } else {
        StopMovieParty();
      }
    }

    /** `handleVideoPlay()`: only the host with a loaded video broadcasts and records playing. */
    method HandleVideoPlay(videoTime: real)
      requires Valid()
      modifies this`state, this`sent
      ensures Valid()
      ensures isHost && old(state).hasVideo ==>
        state == old(state).(isPlaying := true, currentTime := videoTime) && sent == old(sent) + [MoviePlay(videoTime)]
      ensures !(isHost && old(state).hasVideo) ==> state == old(state) && sent == old(sent)
    {
      if isHost && state.hasVideo {
        sent := sent + [MoviePlay(videoTime)];
        state := state.(isPlaying := true, currentTime := videoTime);
      }
    }

    /** `handleVideoPause()`: only the host with a loaded video broadcasts and records paused. */
    method HandleVideoPause(videoTime: real)
      requires Valid()
      modifies this`state, this`sent
      ensures Valid()
      ensures isHost && old(state).hasVideo ==>
        state == old(state).(isPlaying := false, currentTime := videoTime) && sent == old(sent) + [MoviePause(videoTime)]
      ensures !(isHost && old(state).hasVideo) ==> state == old(state) && sent == old(sent)
      ensures isHost && old(state).isPlaying ==> sent == old(sent) + [MoviePause(videoTime)]
    {
      if isHost && state.hasVideo {
        sent := sent + [MoviePause(videoTime)];
        state := state.(isPlaying := false, currentTime := videoTime);
      }
    }

    /** `handleVideoSeek()`: only the position changes. */
    method HandleVideoSeek(videoTime: real)
      requires Valid()
      modifies this`state, this`sent
      ensures Valid()
      ensures isHost && old(state).hasVideo ==>
        state == old(state).(currentTime := videoTime) && sent == old(sent) + [MovieSeek(videoTime)]
      ensures !(isHost && old(state).hasVideo) ==> state == old(state) && sent == old(sent)
      ensures isHost && old(state).isPlaying ==> sent == old(sent) + [MovieSeek(videoTime)]
    {
      if isHost && state.hasVideo {
        sent := sent + [MovieSeek(videoTime)];
        state := state.(currentTime := videoTime);
      }
    }

    /** The `movie-play` handler on a participant's page with the video element present. */
    method OnMoviePlay(at: real, hasElement: bool)
      requires Valid()
      modifies this`state
      ensures Valid()
      ensures hasElement && !isHost ==> state == old(state).(isPlaying := true, currentTime := at)
      ensures !(hasElement && !isHost) ==> state == old(state)
    {
      if hasElement && !isHost {
        state := state.(isPlaying := true, currentTime := at);
      }
    }

    /** The `movie-pause` handler. */
    method OnMoviePause(at: real, hasElement: bool)
      requires Valid()
      modifies this`state
      ensures Valid()
      ensures hasElement && !isHost ==> state == old(state).(isPlaying := false, currentTime := at)
      ensures !(hasElement && !isHost) ==> state == old(state)
    {
      if hasElement && !isHost {
        state := state.(isPlaying := false, currentTime := at);
      }
    }

    /** The `movie-seek` handler. */
    method OnMovieSeek(at: real, hasElement: bool)
      requires Valid()
      modifies this`state
      ensures Valid()
      ensures hasElement && !isHost ==> state == old(state).(currentTime := at)
      ensures !(hasElement && !isHost) ==> state == old(state)
    {
      if hasElement && !isHost {
        state := state.(currentTime := at);
      }
    }

    /** `loadMovieForParticipant(fileName)`: only the video fields change; play state and host stay. */
    method LoadMovieForParticipant(fileName: Option<string>)
      requires Valid()
      modifies this`active, this`state
      ensures Valid()
      ensures active && state == old(state).(hasVideo := true, fileName := fileName)
    {
      active := true;
      state := state.(hasVideo := true, fileName := fileName);
    }

    /** The `video-uploaded` handler: participants load the announced file. */
    method OnVideoUploaded(fileName: Option<string>)
      requires Valid()
      modifies this`active, this`state
      ensures Valid()
      ensures !isHost ==> active && state == old(state).(hasVideo := true, fileName := fileName)
      ensures isHost ==> active == old(active) && state == old(state)
    {
      if !isHost {
        LoadMovieForParticipant(fileName);
      }
    }

    /**
     * `applyVideoStateSync(data)`: a state without a video is ignored;
     * otherwise a participant loads the file, and on every page the
     * record is replaced by the incoming one.
     */
    method ApplyVideoStateSync(data: MovieState)
      requires Valid()
      modifies this`active, this`state
      ensures Valid()
      ensures !data.hasVideo ==> active == old(active) && state == old(state)
      ensures data.hasVideo ==> state == data && active == (old(active) || !isHost)
    {
      if !data.hasVideo {
        return;
      }
      if !isHost {
        LoadMovieForParticipant(data.fileName);
      }
      state := data;
    }

    /** The `movie-party-ended` handler: participants reset, the host keeps its state. */
    method OnMoviePartyEnded()
      requires Valid()
      modifies this`active, this`state
      ensures Valid()
      ensures !isHost ==> !active && state == NoMovie
      ensures isHost ==> active == old(active) && state == old(state)
    {
      if !isHost {
        active := false;
        state := NoMovie;
      }
    }

    /** Replaying a sync is harmless: the second application changes nothing. */
    method ApplyVideoStateSyncTwice(data: MovieState)
      requires Valid()
      modifies this`active, this`state
      ensures Valid()
      ensures !data.hasVideo ==> active == old(active) && state == old(state)
      ensures data.hasVideo ==> state == data && active == (old(active) || !isHost)
    {
      ApplyVideoStateSync(data);
      ghost var once := (active, state);
      ApplyVideoStateSync(data);
      assert (active, state) == once;
    }
  }

  // ---------------------------------------------------------------------------
  // formatTime

  /** The argument of `formatTime`: NaN (no duration yet) or a whole number of seconds. */
  datatype TimeValue = NotANumber | Seconds(n: nat)

  function DigitChar(d: nat): char
    requires d < 10
  {
    ('0' as int + d) as char
  }

  predicate IsDigit(c: char) {
    '0' <= c <= '9'
  }

  /** `n.toString()`: the decimal numeral without leading zeros. */
  function Digits(n: nat): (s: string)
    ensures |s| >= 1 && forall i :: 0 <= i < |s| ==> IsDigit(s[i])
    decreases n
  {
    if n < 10 then [DigitChar(n)] else Digits(n / 10) + [DigitChar(n % 10)]
  }

  /** `s.padStart(2, '0')`. */
  function PadStart2(s: string): (p: string)
    ensures |p| == if |s| < 2 then 2 else |s|
  {
    if |s| < 2 then seq(2 - |s|, _ => '0') + s else s
  }

  function Pad2(n: nat): string {
    PadStart2(Digits(n))
  }

  /** `formatTime(seconds)`: `MM:SS`, or `HH:MM:SS` from one hour on. */
  function FormatTime(t: TimeValue): string {
    match t
    case NotANumber => "00:00"
    case Seconds(n) =>
      var hours := n / 3600;
      var minutes := (n % 3600) / 60;
      var secs := n % 60;
      if hours > 0 then Pad2(hours) + ":" + Pad2(minutes) + ":" + Pad2(secs)
      else Pad2(minutes) + ":" + Pad2(secs)
  }

  /** The three fields `formatTime` prints. */
  lemma ClockFields(n: nat)
    ensures (n % 3600) / 60 < 60 && n % 60 < 60
    ensures (n / 3600) * 3600 + ((n % 3600) / 60) * 60 + n % 60 == n
  {
    var r := n % 3600;
    assert n == (n / 3600) * 3600 + r;
    assert r == (r / 60) * 60 + r % 60;
    assert r % 60 == n % 60 by {
      assert n == ((n / 3600) * 60 + r / 60) * 60 + r % 60;
    }
  }

  /** Below an hour the result is `MM:SS`, five characters; from an hour on it has three fields. */
  lemma FormatShape(t: TimeValue)
    ensures t.NotANumber? ==> FormatTime(t) == "00:00"
    ensures t.Seconds? && t.n < 3600 ==>
      FormatTime(t) == Pad2((t.n % 3600) / 60) + ":" + Pad2(t.n % 60) && |FormatTime(t)| == 5
    ensures t.Seconds? && 3600 <= t.n < 360000 ==> |FormatTime(t)| == 8
  {
    if t.Seconds? {
      ClockFields(t.n);
      var m := (t.n % 3600) / 60;
      var s := t.n % 60;
      DigitsLength(m);
      DigitsLength(s);
      if 3600 <= t.n < 360000 {
        DigitsLength(t.n / 3600);
      }
    }
  }

  lemma {:induction false} DigitsLength(n: nat)
    ensures n < 10 ==> |Digits(n)| == 1
    ensures 10 <= n < 100 ==> |Digits(n)| == 2
  {
  }

  // ---------------------------------------------------------------------------
  // Reading a formatted time back

  /** The value of a decimal numeral, leading zeros allowed. */
  function DecimalValue(s: string): nat
    requires forall i :: 0 <= i < |s| ==> IsDigit(s[i])
    decreases |s|
  {
    if s == [] then 0 else DecimalValue(s[..|s| - 1]) * 10 + DigitValue(s[|s| - 1])
  }

  function DigitValue(c: char): nat
    requires IsDigit(c)
  {
    c as int - '0' as int
  }

  /** The pieces of a string between colons. */
  function SplitColons(s: string): (parts: seq<string>)
    ensures |parts| >= 1
    decreases |s|
  {
    if s == [] then [""]
    else if s[0] == ':' then [""] + SplitColons(s[1..])
    else var rest := SplitColons(s[1..]); [[s[0]] + rest[0]] + rest[1..]
  }

  predicate IsNumeral(s: string) {
    |s| >= 1 && forall i :: 0 <= i < |s| ==> IsDigit(s[i])
  }

  /** Reads `MM:SS` or `HH:MM:SS` back into seconds. */
  function ParseClock(s: string): Option<nat> {
    ParseFields(SplitColons(s))
  }

  /** Two numerals are minutes and seconds, three are hours, minutes and seconds; anything else is no time. */
  function ParseFields(parts: seq<string>): Option<nat> {
    if |parts| == 2 && IsNumeral(parts[0]) && IsNumeral(parts[1]) then
      Some(DecimalValue(parts[0]) * 60 + DecimalValue(parts[1]))
    else if |parts| == 3 && IsNumeral(parts[0]) && IsNumeral(parts[1]) && IsNumeral(parts[2]) then
      Some((DecimalValue(parts[0]) * 60 + DecimalValue(parts[1])) * 60 + DecimalValue(parts[2]))
    else None
  }

  lemma {:induction false} DigitsValue(n: nat)
    ensures DecimalValue(Digits(n)) == n
    decreases n
  {
    if n >= 10 {
      var s := Digits(n);
      assert s[..|s| - 1] == Digits(n / 10);
      DigitsValue(n / 10);
    }
  }

  lemma {:induction false} LeadingZeroValue(s: string)
    requires forall i :: 0 <= i < |s| ==> IsDigit(s[i])
    ensures DecimalValue(['0'] + s) == DecimalValue(s)
    decreases |s|
  {
    if s != [] {
      var z := ['0'] + s;
      assert z[..|z| - 1] == ['0'] + s[..|s| - 1];
      LeadingZeroValue(s[..|s| - 1]);
    }
  }

  /** A padded field is a numeral with the value of the number. */
  lemma Pad2Value(n: nat)
    ensures IsNumeral(Pad2(n)) && DecimalValue(Pad2(n)) == n
    ensures ':' !in Pad2(n)
  {
    DigitsValue(n);
    var d := Digits(n);
    if |d| < 2 {
      assert Pad2(n) == ['0'] + d;
      LeadingZeroValue(d);
    }
  }

  lemma {:induction false} SplitNoColon(a: string)
    requires ':' !in a
    ensures SplitColons(a) == [a]
    decreases |a|
  {
    if a != [] {
      assert a[0] != ':';
      SplitNoColon(a[1..]);
      assert a == [a[0]] + a[1..];
    }
  }

  lemma {:induction false} SplitAtColon(a: string, b: string)
    requires ':' !in a
    ensures SplitColons(a + ":" + b) == [a] + SplitColons(b)
    decreases |a|
  {
    var s := a + ":" + b;
    if a == [] {
      assert s[0] == ':' && s[1..] == b;
    } else {
      assert s[0] == a[0] != ':';
      assert s[1..] == a[1..] + ":" + b;
      SplitAtColon(a[1..], b);
      assert a == [a[0]] + a[1..];
    }
  }

  /** Two numerals read as minutes and seconds. */
  lemma ParseTwoFields(x: string, y: string)
    requires IsNumeral(x) && IsNumeral(y)
    ensures ParseFields([x, y]) == Some(DecimalValue(x) * 60 + DecimalValue(y))
  {
  }

  /** Three numerals read as hours, minutes and seconds. */
  lemma ParseThreeFields(x: string, y: string, z: string)
    requires IsNumeral(x) && IsNumeral(y) && IsNumeral(z)
    ensures ParseFields([x, y, z]) == Some(DecimalValue(x) * 3600 + DecimalValue(y) * 60 + DecimalValue(z))
  {
  }

  lemma SplitTwo(x: string, y: string)
    requires ':' !in x && ':' !in y
    ensures SplitColons(x + ":" + y) == [x, y]
  {
    SplitNoColon(y);
    SplitAtColon(x, y);
  }

  lemma SplitThree(x: string, y: string, z: string)
    requires ':' !in x && ':' !in y && ':' !in z
    ensures SplitColons(x + ":" + y + ":" + z) == [x, y, z]
  {
    var t := y + ":" + z;
    SplitTwo(y, z);
    SplitAtColon(x, t);
    assert x + ":" + y + ":" + z == x + ":" + t;
  }

  /** Reading the formatted time back gives the whole seconds: nothing is lost or ambiguous. */
  lemma FormatTimeRoundTrip(n: nat)
    ensures ParseClock(FormatTime(Seconds(n))) == Some(n)
  {
    var h, m, s := n / 3600, (n % 3600) / 60, n % 60;
    ClockFields(n);
    Pad2Value(h);
    Pad2Value(m);
    Pad2Value(s);
    var text := FormatTime(Seconds(n));
    if h > 0 {
      assert text == Pad2(h) + ":" + Pad2(m) + ":" + Pad2(s);
      SplitThree(Pad2(h), Pad2(m), Pad2(s));
      ParseThreeFields(Pad2(h), Pad2(m), Pad2(s));
    } else {
      assert text == Pad2(m) + ":" + Pad2(s);
      SplitTwo(Pad2(m), Pad2(s));
      ParseTwoFields(Pad2(m), Pad2(s));
    }
  }

  /**
   * The colon-separated fields of `formatTime`: hours, minutes and seconds
   * from one hour on, minutes and seconds below; each field has two digits
   * as long as the hours do.
   */
  lemma FormatFields(n: nat)
    ensures n >= 3600 ==> SplitColons(FormatTime(Seconds(n))) == [Pad2(n / 3600), Pad2((n % 3600) / 60), Pad2(n % 60)]
    ensures n < 3600 ==> SplitColons(FormatTime(Seconds(n))) == [Pad2((n % 3600) / 60), Pad2(n % 60)]
    ensures n < 360000 ==> forall i :: 0 <= i < |SplitColons(FormatTime(Seconds(n)))| ==> |SplitColons(FormatTime(Seconds(n)))[i]| == 2
  {
    var h, m, s := n / 3600, (n % 3600) / 60, n % 60;
    ClockFields(n);
    Pad2Value(h);
    Pad2Value(m);
    Pad2Value(s);
    DigitsLength(m);
    DigitsLength(s);
    if n < 360000 {
      DigitsLength(h);
    }
    if h > 0 {
      assert FormatTime(Seconds(n)) == Pad2(h) + ":" + Pad2(m) + ":" + Pad2(s);
      SplitThree(Pad2(h), Pad2(m), Pad2(s));
    } else {
      assert FormatTime(Seconds(n)) == Pad2(m) + ":" + Pad2(s);
      SplitTwo(Pad2(m), Pad2(s));
    }
  }

  /** Different whole-second times are shown differently. */
  lemma FormatTimeInjective(a: nat, b: nat)
    requires FormatTime(Seconds(a)) == FormatTime(Seconds(b))
    ensures a == b
  {
    FormatTimeRoundTrip(a);
    FormatTimeRoundTrip(b);
  }
}
