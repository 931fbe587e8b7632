/**
 * Playback of voice messages:
 * WhatsAppClone/Screens/Chat/ViewModels/VoiceMessagePlayer.swift.
 * `AVPlayer` is reduced to the item it plays, whether it is playing and
 * its position; time observers are reduced to whether one is registered.
 */
module VoicePlayer {

  import opened Wrappers
  import MediaAttachments

  datatype PlaybackState = Stopped | Playing | Paused
  {
    /** The button symbol: pause while playing, play otherwise. */
    function Icon(): (name: string)
      ensures name == "pause.fill" <==> this == Playing
      ensures name == "play.fill" <==> this != Playing
    {
      if this == Playing then "pause.fill" else "play.fill"
    }
  }

  /** An `AVPlayerItem`: the file it plays. */
  datatype PlayerItem = PlayerItem(url: MediaAttachments.URL)

  /** An `AVPlayer`: its item, whether it is running, and its position in seconds. */
  datatype Player = Player(item: PlayerItem, isPlaying: bool, position: real)

  class VoiceMessagePlayer {
    var player: Option<Player>
    var currentURL: Option<MediaAttachments.URL>
    var playerItem: Option<PlayerItem>
    var playbackState: PlaybackState
    var currentTime: real
    var hasTimeObserver: bool

    /** The player, its item and the current URL are set and cleared together and agree. */
    ghost predicate Valid()
      reads this
    {
      && (currentURL.Some? <==> player.Some?)
      && (playerItem.Some? <==> player.Some?)
      && (player.Some? ==> playerItem == Some(player.value.item) && currentURL == Some(player.value.item.url))
      && (hasTimeObserver ==> player.Some?)
    }

    constructor ()
      ensures Valid()
      ensures player.None? && currentURL.None? && playerItem.None?
      ensures playbackState == Stopped && currentTime == 0.0 && !hasTimeObserver
    {
      player := None;
      currentURL := None;
      playerItem := None;
      playbackState := Stopped;
      currentTime := 0.0;
      hasTimeObserver := false;
    }

    /**
     * `playAudio(from:)`: the URL already loaded resumes; any other URL
     * stops the current one and starts a new player on it.
     */
    method PlayAudio(url: MediaAttachments.URL)
      requires Valid()
      modifies this
      ensures Valid()
      ensures currentURL == Some(url) && player.Some? && player.value.item.url == url
      ensures old(currentURL) != Some(url) ==>
        && playbackState == Playing && player == Some(Player(PlayerItem(url), true, 0.0))
        && currentTime == 0.0 && hasTimeObserver
      ensures old(currentURL) == Some(url) && old(playbackState) == Playing ==> unchanged(this)
      ensures old(currentURL) == Some(url) && old(playbackState) != Playing ==>
        && playbackState == Playing && player == Some(old(player).value.(isPlaying := true))
        && currentTime == old(currentTime) && hasTimeObserver == old(hasTimeObserver)
    {
      if currentURL.Some? && currentURL.value == url {
        ResumePlaying();
      } else {
        StopAudioPlayer();
        currentURL := Some(url);
        var item := PlayerItem(url);
        playerItem := Some(item);
        player := Some(Player(item, false, 0.0));
        player := Some(player.value.(isPlaying := true));
        playbackState := Playing;
        hasTimeObserver := true;  // observeCurrentPlayerTime
      }
    }

    /** `pauseAudio`: pauses whatever is loaded and reports paused, from any state. */
    method PauseAudio()
      requires Valid()
      modifies this
      ensures Valid()
      ensures playbackState == Paused
      ensures player == (if old(player).Some? then Some(old(player).value.(isPlaying := false)) else None)
      ensures currentURL == old(currentURL) && playerItem == old(playerItem)
      ensures currentTime == old(currentTime) && hasTimeObserver == old(hasTimeObserver)
    {
      if player.Some? {
        player := Some(player.value.(isPlaying := false));
      }
      playbackState := Paused;
    }

    /** `seek(to:)`: moves the loaded player; without a player it does nothing. */
    method Seek(timeInterval: real)
      requires Valid()
      modifies this`player
      ensures Valid()
      ensures old(player).None? ==> player.None?
      ensures old(player).Some? ==> player == Some(old(player).value.(position := timeInterval))
    {
      if player.None? {
        return;
      }
      player := Some(player.value.(position := timeInterval));
    }

    /** `resumePlaying`: a paused or stopped player starts again; a playing one is left alone. */
    method ResumePlaying()
      requires Valid()
      modifies this
      ensures Valid()
      ensures old(playbackState) == Playing ==> unchanged(this)
      ensures old(playbackState) != Playing ==>
        && playbackState == Playing
        && player == (if old(player).Some? then Some(old(player).value.(isPlaying := true)) else None)
      ensures currentURL == old(currentURL) && playerItem == old(playerItem)
      ensures currentTime == old(currentTime) && hasTimeObserver == old(hasTimeObserver)
    {
      if playbackState == Paused || playbackState == Stopped {
        if player.Some? {
          player := Some(player.value.(isPlaying := true));
        }
        playbackState := Playing;
      }
    }

    /** The periodic time observer fired with the player's time `t`. */
    method OnTimeObserved(t: real)
      requires Valid()
      modifies this`currentTime
      ensures Valid()
      ensures currentTime == if hasTimeObserver then t else old(currentTime)
    {
      if hasTimeObserver {
        currentTime := t;
      }
    }

    /**
     * `stopAudioPlayer` (also run when the item plays to its end): pauses
     * and rewinds the player, reports stopped, and keeps the URL loaded.
     */
    method StopAudioPlayer()
      requires Valid()
      modifies this
      ensures Valid()
      ensures playbackState == Stopped && currentTime == 0.0
      ensures player == (if old(player).Some? then Some(old(player).value.(isPlaying := false, position := 0.0)) else None)
      ensures currentURL == old(currentURL) && playerItem == old(playerItem)
      ensures hasTimeObserver == old(hasTimeObserver)
    {
      if player.Some? {
        player := Some(player.value.(isPlaying := false));
        player := Some(player.value.(position := 0.0));
      }
      playbackState := Stopped;
      currentTime := 0.0;
    }

    /** `tearDown`: removes the time observer and drops the player, its item and the URL. */
    method TearDown()
      requires Valid()
      modifies this
      ensures Valid()
      ensures player.None? && playerItem.None? && currentURL.None? && !hasTimeObserver
      ensures playbackState == old(playbackState) && currentTime == old(currentTime)
    {
      hasTimeObserver := false;  // removeObservers
      player := None;
      playerItem := None;
      currentURL := None;
    }
  }
}
