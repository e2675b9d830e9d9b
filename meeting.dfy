/**
 * The meeting page's own bookkeeping in js/meeting.js: the room code read
 * from the URL (or generated for a host), the local microphone's mute flag
 * and level detectors, and the teardown of every connection on leaving.
 */
module Meeting {
  import opened Optional
  import Signaling
  import Participants

  // ---------------------------------------------------------------------------
  // Room codes

  /** The 36 characters a generated room code is drawn from. */
  const Chars: string := "ABCDEFGHIJKLMNOPQRSTUVWXYZ0123456789"

  /** The number of characters in a generated room code. */
  const CodeLength: nat := 6

  /** A value of `Math.random()`. */
  predicate IsRandom(r: real) {
    0.0 <= r < 1.0
  }

  /** `Math.floor(Math.random() * chars.length)`: an index into `Chars`. */
  function Draw(r: real): (i: nat)
    requires IsRandom(r)
    ensures i < |Chars|
  {
    (r * |Chars| as real).Floor
  }

  /** The code that a sequence of random numbers spells, one character per number. */
  function CodeOf(random: seq<real>): (code: string)
    requires forall i :: 0 <= i < |random| ==> IsRandom(random[i])
    ensures |code| == |random|
    ensures forall i :: 0 <= i < |code| ==> code[i] == Chars[Draw(random[i])]
  {
    seq(|random|, i requires 0 <= i < |random| => Chars[Draw(random[i])])
  }

  /** A well-formed room code: six characters of `Chars`. */
  predicate IsRoomCode(code: string) {
    |code| == CodeLength && forall i :: 0 <= i < |code| ==> code[i] in Chars
  }

  /** `generateMeetingCode()`, fed with the six numbers `Math.random()` returns. */
  method GenerateMeetingCode(random: seq<real>) returns (result: string)
    requires |random| == CodeLength && forall i :: 0 <= i < |random| ==> IsRandom(random[i])
    ensures result == CodeOf(random)
    ensures IsRoomCode(result)
  {
    result := "";
    for i := 0 to CodeLength
      invariant result == CodeOf(random[..i])
    {
      result := result + [Chars[Draw(random[i])]];
    }
    assert random[..CodeLength] == random;
  }

  /** The position of a character of `Chars`. */
  ghost function IndexOf(c: char): (i: nat)
    requires c in Chars
    ensures i < |Chars| && Chars[i] == c
  {
    var k :| 0 <= k < |Chars| && Chars[k] == c; k
  }

  /** The random number `k / 36` draws the `k`-th character. */
  lemma UnitDraw(k: nat)
    requires k < |Chars|
    ensures IsRandom(k as real / |Chars| as real) && Draw(k as real / |Chars| as real) == k
  {
    var r := k as real / 36.0;
    assert r * 36.0 == k as real;
  }

  /** A random number that makes `Draw` pick the character `c`. */
  ghost function UnitFor(c: char): (r: real)
    requires c in Chars
    ensures IsRandom(r) && Chars[Draw(r)] == c
  {
    UnitDraw(IndexOf(c));
    IndexOf(c) as real / |Chars| as real
  }

  /** Random numbers that make `Draw` pick the given characters. */
  ghost function DrawsFor(code: string): (random: seq<real>)
    requires forall i :: 0 <= i < |code| ==> code[i] in Chars
    ensures |random| == |code|
    ensures forall i :: 0 <= i < |random| ==> IsRandom(random[i]) && Chars[Draw(random[i])] == code[i]
  {
    seq(|code|, i requires 0 <= i < |code| => UnitFor(code[i]))
  }

  /** Every well-formed room code can come out of the generator: the generator reaches all 36^6 codes. */
  lemma EveryCodeReachable(code: string)
    requires IsRoomCode(code)
    ensures exists random :: |random| == CodeLength && (forall i :: 0 <= i < |random| ==> IsRandom(random[i])) && CodeOf(random) == code
  {
    var random := DrawsFor(code);
    assert CodeOf(random) == code;
  }

  /** Where the page goes once the room code is settled. */
  datatype Landing = Enter(code: string, generated: bool) | GoHome

  /** `!roomCode` for the value `URLSearchParams.get("code")` returned. */
  predicate Missing(urlCode: Option<string>) {
    urlCode == None || urlCode == Some("")
  }

  /**
   * The page-load fallback: a host without a code in the URL gets a fresh
   * one; anyone else without a code is sent back to the home page.
   */
  method SettleRoomCode(urlCode: Option<string>, isHost: bool, random: seq<real>) returns (landing: Landing)
    requires |random| == CodeLength && forall i :: 0 <= i < |random| ==> IsRandom(random[i])
    ensures landing.Enter? && landing.generated <==> Missing(urlCode) && isHost
    ensures landing == GoHome <==> Missing(urlCode) && !isHost
    ensures !Missing(urlCode) ==> landing == Enter(urlCode.value, false)
    ensures landing.Enter? && landing.generated ==> landing.code == CodeOf(random) && IsRoomCode(landing.code)
  {
    var roomCode := urlCode;
    var generated := false;
    if Missing(roomCode) && isHost {
      var code := GenerateMeetingCode(random);
      roomCode := Some(code);
      generated := true;
    }
    if Missing(roomCode) {
      return GoHome;
    }
    return Enter(roomCode.value, generated);
  }

  // ---------------------------------------------------------------------------
  // The local microphone

  /** The level above which the noise gate opens. */
  function SpeakingThreshold(movieMode: bool): real {
    if movieMode then 40.0 else 30.0
  }

  /** The level above which feedback is reported. */
  function FeedbackThreshold(movieMode: bool): real {
    if movieMode then 150.0 else 200.0
  }

  /** The level below which reported feedback clears. */
  const FeedbackClearLevel: real := 50.0

  /** `feedbackDetected` after one call of `updateAudioLevel` with the given average level. */
  function NextFeedback(detected: bool, average: real, movieMode: bool): bool {
    if average > FeedbackThreshold(movieMode) then true
    else if detected && average < FeedbackClearLevel then false
    else detected
  }

  /** `feedbackDetected` after a run of frames at the given levels. */
  function FeedbackAfter(detected: bool, levels: seq<real>, movieMode: bool): bool
    decreases |levels|
  {
    if levels == [] then detected
    else FeedbackAfter(NextFeedback(detected, levels[0], movieMode), levels[1..], movieMode)
  }

  /** One frame: feedback is raised above the threshold, cleared below 50 and otherwise kept. */
  lemma FeedbackStep(detected: bool, average: real, movieMode: bool)
    ensures NextFeedback(detected, average, movieMode) <==>
      average > FeedbackThreshold(movieMode) || (detected && average >= FeedbackClearLevel)
    ensures !detected && average <= FeedbackThreshold(movieMode) ==> !NextFeedback(detected, average, movieMode)
    ensures detected && average >= FeedbackClearLevel ==> NextFeedback(detected, average, movieMode)
  {
  }

  /** Once raised, feedback stays raised through any run of frames that never drops below 50. */
  lemma {:induction false} FeedbackLatches(levels: seq<real>, movieMode: bool)
    requires forall i :: 0 <= i < |levels| ==> levels[i] >= FeedbackClearLevel
    ensures FeedbackAfter(true, levels, movieMode)
    decreases |levels|
  {
    if levels != [] {
      FeedbackLatches(levels[1..], movieMode);
    }
  }

  /** Levels in the band between 50 and the threshold never change the flag, whichever way it is set. */
  lemma {:induction false} FeedbackBandKeeps(detected: bool, levels: seq<real>, movieMode: bool)
    requires forall i :: 0 <= i < |levels| ==> FeedbackClearLevel <= levels[i] <= FeedbackThreshold(movieMode)
    ensures FeedbackAfter(detected, levels, movieMode) == detected
    decreases |levels|
  {
    if levels != [] {
      FeedbackBandKeeps(detected, levels[1..], movieMode);
    }
  }

  /** Appending a frame to a run takes one more step from the flag the run left. */
  lemma {:induction false} FeedbackLastWord(detected: bool, levels: seq<real>, average: real, movieMode: bool)
    ensures FeedbackAfter(detected, levels + [average], movieMode)
         == NextFeedback(FeedbackAfter(detected, levels, movieMode), average, movieMode)
    decreases |levels|
  {
    if levels != [] {
      assert (levels + [average])[1..] == levels[1..] + [average];
      FeedbackLastWord(NextFeedback(detected, levels[0], movieMode), levels[1..], average, movieMode);
    }
  }

  /** A run split in two is folded by folding its first part, then its second. */
  lemma {:induction false} FeedbackSplit(detected: bool, xs: seq<real>, ys: seq<real>, movieMode: bool)
    ensures FeedbackAfter(detected, xs + ys, movieMode)
         == FeedbackAfter(FeedbackAfter(detected, xs, movieMode), ys, movieMode)
    decreases |xs|
  {
    if xs == [] {
      assert xs + ys == ys;
    } else {
      assert (xs + ys)[0] == xs[0] && (xs + ys)[1..] == xs[1..] + ys;
      FeedbackSplit(NextFeedback(detected, xs[0], movieMode), xs[1..], ys, movieMode);
    }
  }

  /**
   * The flag after a run is decided by the last frame outside the band:
   * raised if that frame was above the threshold, cleared if it was below 50,
   * whatever came before it.
   */
  lemma FeedbackDecidedByLastOutlier(detected: bool, xs: seq<real>, a: real, ys: seq<real>, movieMode: bool)
    requires a > FeedbackThreshold(movieMode) || a < FeedbackClearLevel
    requires forall i :: 0 <= i < |ys| ==> FeedbackClearLevel <= ys[i] <= FeedbackThreshold(movieMode)
    ensures FeedbackAfter(detected, xs + [a] + ys, movieMode) == (a > FeedbackThreshold(movieMode))
  {
    FeedbackSplit(detected, xs + [a], ys, movieMode);
    FeedbackLastWord(detected, xs, a, movieMode);
    FeedbackBandKeeps(FeedbackAfter(detected, xs + [a], movieMode), ys, movieMode);
  }

  /**
   * The local stream and the state `updateAudioLevel` carries from frame to
   * frame. Gain values are not modelled; the noise gate is open or closed.
   */
  class Microphone {
    var hasStream: bool          // `localStream` is set
    var isMuted: bool
    var trackEnabled: bool       // `localStream.getAudioTracks()[0].enabled`
    var micBroadcasts: seq<bool> // the `muted` values sent with `mic-status`
    var movieMode: bool          // `isMovieAudioDuckingEnabled`
    var gateOpen: bool           // the noise gate lets the voice through
    var silenceArmed: bool       // a `silenceTimeout` is pending
    var feedbackDetected: bool

    /** The track is enabled exactly when the user is not muted. */
    ghost predicate Valid()
      reads this
    {
      trackEnabled == !isMuted
    }

    constructor ()
      ensures Valid()
      ensures !hasStream && !isMuted && micBroadcasts == [] && !movieMode
      ensures !gateOpen && !silenceArmed && !feedbackDetected
    {
      hasStream, isMuted, trackEnabled, micBroadcasts := false, false, true, [];
      movieMode, gateOpen, silenceArmed, feedbackDetected := false, false, false, false;
    }

    /** `getUserMedia` resolved: the stream is kept (the self entry is added to the roster separately). */
    method StreamGranted()
      modifies this`hasStream
      ensures hasStream
    {
      hasStream := true;
    }

    /** `toggleMic()`: without a stream nothing happens; otherwise flip, apply to the track and broadcast. */
    method ToggleMic()
      requires Valid()
      modifies this`isMuted, this`trackEnabled, this`micBroadcasts
      ensures Valid()
      ensures !hasStream ==> isMuted == old(isMuted) && micBroadcasts == old(micBroadcasts)
      ensures hasStream ==> isMuted == !old(isMuted) && micBroadcasts == old(micBroadcasts) + [isMuted]
    {
      if !hasStream {
        return;
      }
      isMuted := !isMuted;
      trackEnabled := !isMuted;
      micBroadcasts := micBroadcasts + [isMuted];
    }

    /** Two toggles restore the mute flag and the track; each toggle announces its state. */
    method ToggleMicTwice()
      requires Valid()
      modifies this`isMuted, this`trackEnabled, this`micBroadcasts
      ensures Valid()
      ensures isMuted == old(isMuted) && trackEnabled == old(trackEnabled)
      ensures hasStream ==> micBroadcasts == old(micBroadcasts) + [!old(isMuted), old(isMuted)]
      ensures !hasStream ==> micBroadcasts == old(micBroadcasts)
    {
      ToggleMic();
      ToggleMic();
    }

    /** `window.enhanceMicrophoneForMovie(enable)`: only the mode flag is modelled. */
    method EnhanceMicrophoneForMovie(enable: bool)
      modifies this`movieMode
      ensures movieMode == enable
    {
      movieMode := enable;
    }

    /** The `movie-audio-state` handler of js/signaling.js: everybody but the host follows the movie. */
    method OnMovieAudioState(host: string, isPlaying: bool, self: string)
      modifies this`movieMode
      ensures movieMode == if host != self then isPlaying else old(movieMode)
    {
      if host != self {
        EnhanceMicrophoneForMovie(isPlaying);
      }
    }

    /**
     * One frame of `updateAudioLevel` at the given average level: above the
     * speaking threshold the gate opens and the pending close is cancelled,
     * otherwise a close is armed; then the feedback flag is updated.
     */
    method UpdateAudioLevel(average: real)
      modifies this`gateOpen, this`silenceArmed, this`feedbackDetected
      ensures average > SpeakingThreshold(movieMode) ==> gateOpen && !silenceArmed
      ensures average <= SpeakingThreshold(movieMode) ==> gateOpen == old(gateOpen) && silenceArmed
      ensures feedbackDetected == NextFeedback(old(feedbackDetected), average, movieMode)
    {
      if average > SpeakingThreshold(movieMode) {
        gateOpen := true;
        silenceArmed := false;
      } else {
        silenceArmed := true;
      }
      if average > FeedbackThreshold(movieMode) {
        if !feedbackDetected {
          feedbackDetected := true;
        }
      } else if feedbackDetected && average < FeedbackClearLevel {
        feedbackDetected := false;
      }
    }

    /** The 300 ms `silenceTimeout` fires: the gate closes. */
    method SilenceTimeout()
      requires silenceArmed
      modifies this`gateOpen, this`silenceArmed
      ensures !gateOpen && !silenceArmed
    {
      gateOpen := false;
      silenceArmed := false;
    }
  }

  /** The `getUserMedia` success callback: keep the stream and list oneself. */
  method OnStreamGranted(mic: Microphone, roster: Participants.Roster, userName: string)
    modifies mic`hasStream, roster
    ensures mic.hasStream
    ensures roster.names == old(roster.names) + {userName}
  {
    mic.StreamGranted();
    roster.Add(userName);
  }

  // ---------------------------------------------------------------------------
  // Leaving

  /**
   * `leaveMeeting()`: unless the user declines, close and delete every
   * registered connection. Stopping the tracks, the socket and the session
   * storage are not modelled.
   */
  method LeaveMeeting(client: Signaling.Client, confirmed: bool)
    requires client.Valid()
    modifies client`peers, client`closed
    ensures client.Valid()
    ensures !confirmed ==> client.peers == old(client.peers) && client.closed == old(client.closed)
    ensures confirmed ==> client.peers == map[]
    ensures confirmed ==> |client.closed| == |old(client.closed)| + |old(client.peers)|
    ensures client.closed[..|old(client.closed)|] == old(client.closed)
    ensures confirmed ==> forall n :: n in old(client.peers) ==> old(client.peers)[n].id in client.closed[|old(client.closed)|..]
  {
    if !confirmed {
      return;
    }
    ghost var s0 := client.State();
    ghost var order: seq<string> := [];
    while client.peers != map[]
      invariant client.Valid()
      invariant Signaling.Distinct(order) && forall i :: 0 <= i < |order| ==> order[i] in s0.peers
      invariant client.State() == Signaling.DiscardedAll(s0, order)
      invariant |order| + |client.peers.Keys| == |s0.peers.Keys|
      decreases client.peers.Keys
    {
      var name :| name in client.peers;
      Signaling.DiscardedAllStep(s0, order, name);
      client.Discard(name);
      order := order + [name];
    }
    Signaling.AllDiscarded(s0, order);
  }
}
